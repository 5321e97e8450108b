/**
 * The photobooth session: the module-level state of the page script and
 * its event handlers. A capture run is atomic here; every `await` of the
 * run is a pause at which the page is visible, and is recorded as a
 * `Pause` snapshot so that what the user sees during a run can be stated.
 */
module Booth {
  import opened Optional
  import opened Overlay
  import opened Strip

  /** Stills per run. */
  const Photos: nat := 4

  /** Seconds counted down before each still. */
  const CountFrom: nat := 3

  /** Width of the QR code, in pixels. */
  const QrWidth: nat := 160

  /** The text of the timer element; photos are numbered from 1. */
  datatype Status =
    | Blank                            // the empty text written at the start of a run
    | Countdown(photo: nat, secs: nat) // "get ready" for photo `photo`, `secs` seconds left
    | Taking(photo: nat)               // "taking photo `photo`"
    | Done(photo: nat)                 // "photo `photo` done"
    | Complete                         // the run is finished, look at the preview
    | Dash                             // the dash written by retake

  /** What is on screen while a run is suspended in one of its `await`s. */
  datatype Pause = Pause(status: Status, busy: bool, startEnabled: bool, retakeEnabled: bool, shots: nat)

  /** The PNG data URL of a strip; its encoding is not modelled. */
  datatype DataUrl = Png(strip: Strip)

  /** The QR panel: a code of the given width for (a blob URL of) the strip. */
  datatype QrPanel = QrPanel(payload: DataUrl, width: nat)

  /** The page's buttons. */
  datatype Button = StartButton | RetakeButton | DownloadButton | ShareButton

  /** The pauses of photo `i` (numbered from 0) after `k` countdown seconds. */
  function CountdownPauses(i: nat, k: nat): (ps: seq<Pause>)
    requires k <= CountFrom
    ensures |ps| == k
    ensures forall j :: 0 <= j < k ==> ps[j] == Pause(Countdown(i + 1, CountFrom - j), true, false, false, i)
  {
    if k == 0 then [] else CountdownPauses(i, k - 1) + [Pause(Countdown(i + 1, CountFrom - (k - 1)), true, false, false, i)]
  }

  /** The five pauses of photo `i`: three countdown seconds, the
      stabilisation delay, and the "done" message after the still is taken. */
  function PhotoPauses(i: nat): seq<Pause>
  {
    CountdownPauses(i, CountFrom) + [Pause(Taking(i + 1), true, false, false, i), Pause(Done(i + 1), true, false, false, i + 1)]
  }

  /** The pauses of the first `n` photos of a run. */
  function RunPauses(n: nat): (ps: seq<Pause>)
    ensures |ps| == 5 * n
  {
    if n == 0 then [] else RunPauses(n - 1) + PhotoPauses(n - 1)
  }

  lemma {:induction false} RunPausesAt(n: nat, k: nat)
    requires k < 5 * n
    ensures RunPauses(n)[k] == PhotoPauses(k / 5)[k % 5]
  {
    if k < 5 * (n - 1) {
      RunPausesAt(n - 1, k);
    } else {
      assert k / 5 == n - 1 && k % 5 == k - 5 * (n - 1);
    }
  }

  /** During a whole run every photo is preceded by the countdown 3, 2, 1
      and the stabilisation pause, the still is counted from the "done"
      message on, and the page stays busy with start and retake disabled. */
  lemma RunScript(k: nat)
    requires k < 5 * Photos
    ensures var p := RunPauses(Photos)[k];
      && p.busy && !p.startEnabled && !p.retakeEnabled
      && (k % 5 < 3 ==> p.status == Countdown(k / 5 + 1, 3 - k % 5) && p.shots == k / 5)
      && (k % 5 == 3 ==> p.status == Taking(k / 5 + 1) && p.shots == k / 5)
      && (k % 5 == 4 ==> p.status == Done(k / 5 + 1) && p.shots == k / 5 + 1)
  {
    RunPausesAt(Photos, k);
  }

  /** Captures taken in order from the first `n` samples. */
  function Shots(samples: seq<Sample>, overlayWidth: nat, overlayHeight: nat,
                 frame: Option<Image>, sticker: Option<Image>): (cs: seq<Still>)
    ensures |cs| == |samples|
  {
    if samples == [] then []
    else Shots(samples[..|samples| - 1], overlayWidth, overlayHeight, frame, sticker)
         + [CaptureFrame(samples[|samples| - 1], overlayWidth, overlayHeight, frame, sticker)]
  }

  /** The `i`-th capture is taken from the `i`-th sample. */
  lemma {:induction false} ShotsAt(samples: seq<Sample>, overlayWidth: nat, overlayHeight: nat,
                                   frame: Option<Image>, sticker: Option<Image>, i: nat)
    requires i < |samples|
    ensures Shots(samples, overlayWidth, overlayHeight, frame, sticker)[i]
         == CaptureFrame(samples[i], overlayWidth, overlayHeight, frame, sticker)
  {
    var init := samples[..|samples| - 1];
    if i < |samples| - 1 {
      ShotsAt(init, overlayWidth, overlayHeight, frame, sticker, i);
      assert init[i] == samples[i];
    }
  }

  lemma ConcatAssoc<T>(a: seq<T>, b: seq<T>, c: seq<T>)
    ensures (a + b) + c == a + (b + c)
  {
  }

  /** Taking one more sample appends its still. */
  lemma ShotsSnoc(samples: seq<Sample>, overlayWidth: nat, overlayHeight: nat,
                  frame: Option<Image>, sticker: Option<Image>, i: nat)
    requires i < |samples|
    ensures Shots(samples[..i + 1], overlayWidth, overlayHeight, frame, sticker)
         == Shots(samples[..i], overlayWidth, overlayHeight, frame, sticker)
            + [CaptureFrame(samples[i], overlayWidth, overlayHeight, frame, sticker)]
  {
    assert samples[..i + 1][..i] == samples[..i];
  }

  class Photobooth {
    /** Whether the camera stream was acquired. */
    var hasStream: bool
    var captures: seq<Still>
    var isCapturing: bool
    /** `stripPreview.finalDataUrl`. */
    var finalDataUrl: Option<DataUrl>
    var startEnabled: bool
    var retakeEnabled: bool
    var downloadEnabled: bool
    var shareEnabled: bool
    var frameSlot: Option<Image>
    var stickerSlot: Option<Image>
    /** Size of the overlay canvas laid over the video. */
    var overlayWidth: nat
    var overlayHeight: nat
    /** What was last drawn on the overlay canvas, which shows `ScreenLayers(screen)`. */
    var screen: Scene
    /** The thumbnail list, one entry per capture. */
    var thumbs: seq<Still>
    var timer: Status
    /** The preview canvas: the strip drawn on it and its size, if any. */
    var preview: Option<Preview>
    /** The `href` of the download link. */
    var linkHref: Option<DataUrl>
    var qr: Option<QrPanel>
    /** Every pause of every run so far, in order. */
    var pauses: seq<Pause>

    /** The state between two events: no run in progress, start and retake
        usable, the overlay canvas up to date, and the session's data in step. */
    ghost predicate Valid()
      reads this
    {
      Idle() && Drawn() && InStep()
    }

    ghost predicate Idle()
      reads this`isCapturing, this`startEnabled, this`retakeEnabled
    {
      !isCapturing && startEnabled && retakeEnabled
    }

    /** The overlay canvas shows the current slots at the current size. */
    ghost predicate Drawn()
      reads this`screen, this`overlayWidth, this`overlayHeight, this`frameSlot, this`stickerSlot
    {
      screen == Scene(overlayWidth, overlayHeight, frameSlot, stickerSlot)
    }

    /** Whether the overlay canvas is up to date depends only on the canvas,
        its size and the two slots. */
    twostate lemma DrawnKept()
      requires unchanged(this`screen, this`overlayWidth, this`overlayHeight, this`frameSlot, this`stickerSlot)
      ensures old(Drawn()) == Drawn()
    {
    }

    /** One thumbnail per capture, and either no captures and no strip, or a
        full run's captures with their strip shown and encoded, and download
        and share enabled exactly when there is a strip to download. */
    ghost predicate InStep()
      reads this`thumbs, this`captures, this`downloadEnabled, this`shareEnabled, this`finalDataUrl, this`preview
    {
      && thumbs == captures
      && downloadEnabled == finalDataUrl.Some? && shareEnabled == finalDataUrl.Some?
      && ((|captures| == 0 && finalDataUrl.None? && preview.None?)
          || (|captures| == Photos && preview == Some(PreviewOf(Composite(captures).value))
              && finalDataUrl == Some(Png(Composite(captures).value))))
    }

    function Snapshot(): Pause
      reads this
    {
      Pause(timer, isCapturing, startEnabled, retakeEnabled, |captures|)
    }

    /** The page once the camera request has settled (`cameraOk` when it was
        granted), with the overlay canvas sized to the video's display area.
        The markup's initial button states are taken to be: start and retake
        enabled, download and share disabled. */
    constructor (cameraOk: bool, width: nat, height: nat)
      ensures Valid()
      ensures hasStream == cameraOk && overlayWidth == width && overlayHeight == height
      ensures captures == [] && frameSlot.None? && stickerSlot.None? && pauses == []
      ensures !downloadEnabled && !shareEnabled && linkHref.None? && qr.None?
    {
      hasStream := cameraOk;
      captures := [];
      isCapturing := false;
      finalDataUrl := None;
      startEnabled, retakeEnabled := true, true;
      downloadEnabled, shareEnabled := false, false;
      frameSlot, stickerSlot := None, None;
      overlayWidth, overlayHeight := width, height;
      screen := Scene(width, height, None, None);
      thumbs := [];
      timer := Blank;
      preview := None;
      linkHref := None;
      qr := None;
      pauses := [];
    }

    /** An `await`: the page shows its current state until the run resumes. */
    method Await()
      modifies this`pauses
      ensures pauses == old(pauses) + [Snapshot()]
    {
      pauses := pauses + [Snapshot()];
    }

    /** `drawOverlay`: redraw the overlay canvas from the two slots. */
    method DrawOverlay()
      modifies this`screen
      ensures screen == Scene(overlayWidth, overlayHeight, frameSlot, stickerSlot)
    {
      screen := Scene(overlayWidth, overlayHeight, frameSlot, stickerSlot);
    }

    /** While the overlay canvas is up to date it shows the frame slot's
        image over the whole canvas and the sticker slot's image centred,
        20 pixels above the canvas's bottom edge. */
    lemma ScreenShowsSlots()
      requires Drawn()
      ensures var layers := ScreenLayers(screen);
        && (layers.frame.Some? <==> frameSlot.Some?)
        && (layers.frame.Some? ==> layers.frame.value == Placement(0.0, 0.0, overlayWidth as real, overlayHeight as real))
        && (layers.sticker.Some? <==> stickerSlot.Some?)
        && (layers.sticker.Some? ==>
              && 2.0 * layers.sticker.value.x + layers.sticker.value.width == overlayWidth as real
              && layers.sticker.value.y + layers.sticker.value.height == overlayHeight as real - 20.0)
    {
      ScreenLayersShape(screen);
    }

    /** `resizeOverlay`: the overlay canvas takes the video's display size. */
    method ResizeOverlay(width: nat, height: nat)
      modifies this`overlayWidth, this`overlayHeight, this`screen
      ensures overlayWidth == width && overlayHeight == height && Drawn()
    {
      overlayWidth, overlayHeight := width, height;
      DrawOverlay();
    }

    /** `buildStrip`: with captures, compose the strip, show it in the
        preview and keep its data URL for download and share. */
    method BuildStrip()
      modifies this`finalDataUrl, this`preview, this`linkHref
      ensures |captures| == 0 ==> unchanged(this)
      ensures |captures| > 0 ==>
                && preview == Some(PreviewOf(Composite(captures).value))
                && finalDataUrl == Some(Png(Composite(captures).value))
                && linkHref == finalDataUrl
    {
      var strip := ComposeStrip(captures);
      if strip.None? {
        return;
      }
      preview := Some(PreviewOf(strip.value));
      finalDataUrl := Some(Png(strip.value));
      linkHref := finalDataUrl;
    }

    /** `take4Photos`, with `samples[i]` what the camera and the filter
        selector offer when the `i`-th still is taken. Without a stream nothing
        happens; otherwise the captures are cleared, four stills are taken
        after their countdowns, the strip is built and the buttons re-enabled. */
    method Take4Photos(samples: seq<Sample>)
      requires |samples| == Photos
      modifies this`isCapturing, this`startEnabled, this`retakeEnabled, this`downloadEnabled, this`shareEnabled,
               this`captures, this`thumbs, this`timer, this`pauses, this`finalDataUrl, this`preview, this`linkHref
      ensures !old(hasStream) ==> unchanged(this)
      ensures old(hasStream) ==>
                && captures == Shots(samples, overlayWidth, overlayHeight, frameSlot, stickerSlot)
                && thumbs == captures
                && pauses == old(pauses) + RunPauses(|samples|)
                && timer == Complete
                && !isCapturing && startEnabled && retakeEnabled && downloadEnabled && shareEnabled
                && preview == Some(PreviewOf(Composite(captures).value))
                && finalDataUrl == Some(Png(Composite(captures).value))
                && linkHref == finalDataUrl
      ensures old(hasStream) ==> Idle() && InStep()
    {
      if !hasStream {
        return;
      }
      Run(samples);
    }

    /** A run once the stream is known to be there. */
    method Run(samples: seq<Sample>)
      requires |samples| == Photos
      modifies this`isCapturing, this`startEnabled, this`retakeEnabled, this`downloadEnabled, this`shareEnabled,
               this`captures, this`thumbs, this`timer, this`pauses, this`finalDataUrl, this`preview, this`linkHref
      ensures captures == Shots(samples, overlayWidth, overlayHeight, frameSlot, stickerSlot)
      ensures thumbs == captures
      ensures pauses == old(pauses) + RunPauses(|samples|)
      ensures timer == Complete
      ensures !isCapturing && startEnabled && retakeEnabled && downloadEnabled && shareEnabled
      ensures preview == Some(PreviewOf(Composite(captures).value))
      ensures finalDataUrl == Some(Png(Composite(captures).value))
      ensures linkHref == finalDataUrl
    {
      BeginRun();
      ShootAll(samples);
      FinishRun();
    }

    /** The start of a run: busy, start and retake disabled, no captures,
        no thumbnails, an empty timer. */
    method BeginRun()
      modifies this`isCapturing, this`startEnabled, this`retakeEnabled, this`captures, this`thumbs, this`timer
      ensures isCapturing && !startEnabled && !retakeEnabled && captures == [] && thumbs == [] && timer == Blank
    {
      isCapturing := true;
      startEnabled := false;
      retakeEnabled := false;
      captures := [];
      thumbs := [];
      timer := Blank;
    }

    /** The run's loop: four rounds of `TakePhoto`. */
    method ShootAll(samples: seq<Sample>)
      requires |samples| == Photos
      requires isCapturing && !startEnabled && !retakeEnabled && captures == [] && thumbs == []
      modifies this`captures, this`thumbs, this`timer, this`pauses
      ensures captures == Shots(samples, overlayWidth, overlayHeight, frameSlot, stickerSlot)
      ensures thumbs == captures
      ensures pauses == old(pauses) + RunPauses(|samples|)
    {
      for i := 0 to |samples|
        invariant captures == Shots(samples[..i], overlayWidth, overlayHeight, frameSlot, stickerSlot)
        invariant thumbs == captures
        invariant pauses == old(pauses) + RunPauses(i)
      {
        TakePhoto(i, samples[i]);
        ShotsSnoc(samples, overlayWidth, overlayHeight, frameSlot, stickerSlot, i);
        ConcatAssoc(old(pauses), RunPauses(i), PhotoPauses(i));
      }
      assert samples[..|samples|] == samples;
    }

    /** After the loop: build the strip, show the final message, re-enable
        every button and clear the busy flag. */
    method FinishRun()
      requires |captures| == Photos
      modifies this`isCapturing, this`startEnabled, this`retakeEnabled, this`downloadEnabled, this`shareEnabled,
               this`timer, this`finalDataUrl, this`preview, this`linkHref
      ensures timer == Complete
      ensures !isCapturing && startEnabled && retakeEnabled && downloadEnabled && shareEnabled
      ensures preview == Some(PreviewOf(Composite(captures).value))
      ensures finalDataUrl == Some(Png(Composite(captures).value))
      ensures linkHref == finalDataUrl
      ensures Idle() && (thumbs == captures ==> InStep())
    {
      BuildStrip();
      timer := Complete;
      startEnabled, retakeEnabled := true, true;
      downloadEnabled, shareEnabled := true, true;
      isCapturing := false;
    }

    /** One round of the run's loop: the countdown, the stabilisation pause,
        the still appended to the captures and the thumbnails, the "done" pause. */
    method TakePhoto(i: nat, sample: Sample)
      requires isCapturing && !startEnabled && !retakeEnabled && |captures| == i
      modifies this`captures, this`thumbs, this`timer, this`pauses
      ensures captures == old(captures) + [CaptureFrame(sample, overlayWidth, overlayHeight, frameSlot, stickerSlot)]
      ensures thumbs == old(thumbs) + [CaptureFrame(sample, overlayWidth, overlayHeight, frameSlot, stickerSlot)]
      ensures pauses == old(pauses) + PhotoPauses(i)
      ensures timer == Done(i + 1)
    {
      for k := 0 to CountFrom
        modifies this`timer, this`pauses
        invariant pauses == old(pauses) + CountdownPauses(i, k)
      {
        timer := Countdown(i + 1, CountFrom - k);
        Await();
      }
      timer := Taking(i + 1);
      Await();
      var still := CaptureFrame(sample, overlayWidth, overlayHeight, frameSlot, stickerSlot);
      captures := captures + [still];
      thumbs := thumbs + [still];
      timer := Done(i + 1);
      Await();
    }

    /** The start button's handler: ignored while a run is in progress. */
    method OnStart(samples: seq<Sample>)
      requires |samples| == Photos
      modifies this`isCapturing, this`startEnabled, this`retakeEnabled, this`downloadEnabled, this`shareEnabled,
               this`captures, this`thumbs, this`timer, this`pauses, this`finalDataUrl, this`preview, this`linkHref
      ensures Started(samples)
      ensures !old(isCapturing) && old(hasStream) ==> Idle() && InStep()
      ensures old(Drawn()) ==> Drawn()
    {
      if isCapturing {
        return;
      }
      Take4Photos(samples);
      DrawnKept();
    }

    /** The retake button's handler: forget the captures, the thumbnails
        and the strip, and disable download and share. The QR panel and
        the download link's `href` are left as they were. */
    method OnRetake()
      modifies this`captures, this`thumbs, this`preview, this`finalDataUrl,
               this`downloadEnabled, this`shareEnabled, this`timer
      ensures Retaken()
      ensures InStep()
      ensures old(Drawn()) ==> Drawn()
    {
      captures := [];
      thumbs := [];
      preview := None;
      finalDataUrl := None;
      downloadEnabled, shareEnabled := false, false;
      timer := Dash;
    }

    /** `onDownload`: without a data URL nothing happens; otherwise the link
        points at it and is followed, `saved` being the file downloaded. */
    method OnDownload() returns (saved: Option<DataUrl>)
      modifies this`linkHref
      ensures Downloaded(saved)
    {
      if finalDataUrl.None? {
        return None;
      }
      linkHref := finalDataUrl;
      saved := finalDataUrl;
    }

    /** `onShareQR`: without a data URL nothing happens; otherwise the QR
        panel is replaced by a code for the strip. */
    method OnShareQR()
      modifies this`qr
      ensures Shared()
    {
      if finalDataUrl.None? {
        return;
      }
      qr := Some(QrPanel(finalDataUrl.value, QrWidth));
    }

    /** A frame file was picked; `picked` is the decoded image, `None` when no
        file was chosen or it did not load. Only the frame slot changes. */
    method OnFrameUpload(picked: Option<Image>)
      modifies this`frameSlot, this`screen
      ensures picked.None? ==> unchanged(this)
      ensures picked.Some? ==> frameSlot == picked && Drawn()
    {
      if picked.None? {
        return;
      }
      frameSlot := picked;
      DrawOverlay();
    }

    /** A sticker file was picked: as for the frame, on the sticker slot. */
    method OnStickerUpload(picked: Option<Image>)
      modifies this`stickerSlot, this`screen
      ensures picked.None? ==> unchanged(this)
      ensures picked.Some? ==> stickerSlot == picked && Drawn()
    {
      if picked.None? {
        return;
      }
      stickerSlot := picked;
      DrawOverlay();
    }

    /** The clear-overlays button: both slots emptied, the overlay redrawn. */
    method OnClearOverlays()
      modifies this`frameSlot, this`stickerSlot, this`screen
      ensures frameSlot.None? && stickerSlot.None?
      ensures Drawn()
    {
      frameSlot, stickerSlot := None, None;
      DrawOverlay();
    }

    predicate Enabled(b: Button)
      reads this
    {
      match b
      case StartButton => startEnabled
      case RetakeButton => retakeEnabled
      case DownloadButton => downloadEnabled
      case ShareButton => shareEnabled
    }

    /** What a start did: nothing while a run is in progress or without a
        stream; otherwise a whole run of `samples`, after which every button
        is enabled and the strip is shown, encoded and linked. The QR panel
        is left as it was. */
    twostate predicate Started(samples: seq<Sample>)
      reads this
    {
      && (old(isCapturing) || !old(hasStream) ==> unchanged(this))
      && (!old(isCapturing) && old(hasStream) ==>
            && captures == Shots(samples, overlayWidth, overlayHeight, frameSlot, stickerSlot)
            && thumbs == captures
            && pauses == old(pauses) + RunPauses(|samples|)
            && timer == Complete
            && !isCapturing && startEnabled && retakeEnabled && downloadEnabled && shareEnabled
            && Composite(captures).Some?
            && preview == Some(PreviewOf(Composite(captures).value))
            && finalDataUrl == Some(Png(Composite(captures).value))
            && linkHref == finalDataUrl)
      && unchanged(this`qr)
    }

    /** What a retake did: the captures, thumbnails and strip are gone and
        download and share disabled; the run flags, the pause record, the
        download link and the QR panel are left as they were. */
    twostate predicate Retaken()
      reads this
    {
      && captures == [] && thumbs == [] && preview.None? && finalDataUrl.None?
      && !downloadEnabled && !shareEnabled && timer == Dash
      && unchanged(this`isCapturing, this`startEnabled, this`retakeEnabled, this`pauses, this`linkHref, this`qr)
    }

    /** What a download did: `saved` is the stored data URL; without one
        nothing changed, otherwise the link points at it. Only the link's
        `href` changes. */
    twostate predicate Downloaded(new saved: Option<DataUrl>)
      reads this
    {
      && saved == old(finalDataUrl)
      && (old(finalDataUrl).None? ==> unchanged(this))
      && (old(finalDataUrl).Some? ==> linkHref == old(finalDataUrl))
      && unchanged(this`isCapturing, this`startEnabled, this`retakeEnabled, this`downloadEnabled,
                   this`shareEnabled, this`captures, this`thumbs, this`timer, this`pauses,
                   this`finalDataUrl, this`preview, this`qr)
    }

    /** What a share did: without a stored data URL nothing changed,
        otherwise the QR panel shows a code of it. Only the QR panel
        changes. */
    twostate predicate Shared()
      reads this
    {
      && (old(finalDataUrl).None? ==> unchanged(this))
      && (old(finalDataUrl).Some? ==> qr == Some(QrPanel(old(finalDataUrl).value, QrWidth)))
      && unchanged(this`isCapturing, this`startEnabled, this`retakeEnabled, this`downloadEnabled,
                   this`shareEnabled, this`captures, this`thumbs, this`timer, this`pauses,
                   this`finalDataUrl, this`preview, this`linkHref)
    }

    /** What the handler of button `b` did, between the state before the
        click and the state after it. Only a download saves a file. */
    twostate predicate Handled(b: Button, samples: seq<Sample>, new saved: Option<DataUrl>)
      reads this
    {
      match b
      case StartButton => saved.None? && Started(samples)
      case RetakeButton => saved.None? && Retaken()
      case DownloadButton => Downloaded(saved)
      case ShareButton => saved.None? && Shared()
    }

    /** The handler of button `b`, run for a click on it. */
    method Dispatch(b: Button, samples: seq<Sample>) returns (saved: Option<DataUrl>)
      requires |samples| == Photos
      modifies this`isCapturing, this`startEnabled, this`retakeEnabled, this`downloadEnabled, this`shareEnabled,
               this`captures, this`thumbs, this`timer, this`pauses, this`finalDataUrl, this`preview, this`linkHref,
               this`qr
      ensures Handled(b, samples, saved)
      ensures old(Idle()) ==> Idle()
      ensures old(Drawn()) ==> Drawn()
      ensures old(InStep()) ==> InStep()
    {
      saved := None;
      match b
      case StartButton => OnStart(samples);
      case RetakeButton => OnRetake();
      case DownloadButton => saved := OnDownload();
      case ShareButton => OnShareQR();
    }

    /** A click on button `b`: the browser does not dispatch clicks on a
        disabled button; otherwise the button's handler runs. `samples` is
        what the camera offers if a run starts; `saved` is the file a
        download yields. */
    method Press(b: Button, samples: seq<Sample>) returns (saved: Option<DataUrl>)
      requires |samples| == Photos
      modifies this`isCapturing, this`startEnabled, this`retakeEnabled, this`downloadEnabled, this`shareEnabled,
               this`captures, this`thumbs, this`timer, this`pauses, this`finalDataUrl, this`preview, this`linkHref,
               this`qr
      ensures !old(Enabled(b)) ==> unchanged(this) && saved.None?
      ensures old(Enabled(b)) ==> Handled(b, samples, saved)
      ensures old(Idle()) ==> Idle()
      ensures old(Drawn()) ==> Drawn()
      ensures old(InStep()) ==> InStep()
    {
      saved := None;
      if !Enabled(b) {
        return;
      }
      saved := Dispatch(b, samples);
    }
  }
}
