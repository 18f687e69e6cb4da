/** The preview panel (client/src/components/qr-preview-panel.tsx): the render
    guard, the options handed to the QR encoder, the state updates of one
    generation, the size label and the download decision. The encoder and the
    canvas are foreign: the encoder is a function parameter, the canvas a value
    holding the PNG data URL it would give. */
module Preview {

  import opened Wrappers
  import opened JsText
  import opened QrConfig
  import opened SizeEstimate

  /** Quiet-zone width in modules, fixed. */
  const Margin: nat := 2
  const DarkColor: string := "#000000"
  const OpaqueLight: string := "#FFFFFF"
  const TransparentLight: string := "#00000000"
  const EmptyContentAlert: string := "Please enter content to generate QR code"

  datatype ColorOptions = ColorOptions(dark: string, light: string)

  datatype EncoderOptions = EncoderOptions(
    width: int,
    margin: nat,
    color: ColorOptions,
    errorCorrectionLevel: Level)

  /** The arguments of `QRCode.toCanvas(canvas, text, options)` besides the canvas. */
  datatype EncodeRequest = EncodeRequest(text: string, options: EncoderOptions)

  /** What the encoder call comes to: the canvas drawn, with the PNG data URL it
      then yields, or a rejected promise. */
  datatype EncodeOutcome = Drawn(pngDataUrl: string) | Failed(reason: string)

  /** `canvasRef.current`: no element yet, or a canvas and its current PNG data URL. */
  datatype Canvas = Unmounted | Mounted(pngDataUrl: string)

  /** What the `catch` block hands to `console.error`. */
  datatype LoggedError = EncoderError(reason: string) | PayloadMissing

  /** How one call of `generateQRCode` ended. */
  datatype Generation = Skipped | Rendered | Errored(error: LoggedError)

  /** What the download button does: an alert, or a link that saves a file. */
  datatype DownloadAction = Alert(message: string) | Save(fileName: string, href: string)

  /** The guard shared by generation and download: some content that is not
      only white space, and a mounted canvas. */
  predicate ShouldRender(content: string, canvas: Canvas)
  {
    Trim(content) != [] && canvas.Mounted?
  }

  lemma ShouldRenderIff(content: string, canvas: Canvas)
    ensures ShouldRender(content, canvas) <==>
            canvas.Mounted? && exists i :: 0 <= i < |content| && !IsWhiteSpace(content[i])
  {
    TrimEmptyIffAllWhiteSpace(content);
  }

  /** The default content is rendered as soon as a canvas is mounted. */
  lemma DefaultContentRenders(canvas: Canvas)
    requires canvas.Mounted?
    ensures ShouldRender(Default().content, canvas)
  {
    var content := Default().content;
    assert content[0] == 'h';
    TrimKeepsNonWhiteStart(content);
  }

  /** The canvas once React has committed `width={config.size}` and
      `height={config.size}`: giving a mounted canvas a different size resets
      its bitmap, so its PNG becomes `blank(newSize)`, the data URL of a blank
      canvas of that size; an unchanged size leaves the element untouched, and
      an unmounted canvas has nothing to reset. */
  function Committed(canvas: Canvas, oldSize: int, newSize: int, blank: int -> string): (r: Canvas)
    ensures r.Mounted? <==> canvas.Mounted?
    ensures oldSize == newSize ==> r == canvas
    ensures canvas.Mounted? && oldSize != newSize ==> r.pngDataUrl == blank(newSize)
  {
    if canvas.Mounted? && oldSize != newSize then Mounted(blank(newSize)) else canvas
  }

  /** Resizing never changes whether generation or download goes ahead. */
  lemma CommittedKeepsGuard(content: string, canvas: Canvas, oldSize: int, newSize: int, blank: int -> string)
    ensures ShouldRender(content, Committed(canvas, oldSize, newSize, blank)) <==> ShouldRender(content, canvas)
  {
  }

  /** The encoder arguments built from a configuration. */
  function RenderRequest(c: Config): (req: EncodeRequest)
    ensures req.text == c.content
    ensures req.options.width == c.size && req.options.margin == 2
    ensures req.options.errorCorrectionLevel == c.errorCorrectionLevel
    ensures req.options.color.dark == "#000000"
    ensures req.options.color.light == if c.transparentBackground then "#00000000" else "#FFFFFF"
  {
    EncodeRequest(
      c.content,
      EncoderOptions(
        c.size,
        Margin,
        ColorOptions(DarkColor, if c.transparentBackground then TransparentLight else OpaqueLight),
        c.errorCorrectionLevel))
  }

  /** The request determines every field of the configuration except the pixel
      density, which is never passed on. */
  lemma RenderRequestDeterminesAllButDensity(a: Config, b: Config)
    ensures RenderRequest(a) == RenderRequest(b) <==> a.(pixelDensity := 0) == b.(pixelDensity := 0)
  {
  }

  /** Toggling transparency changes the request in the light colour alone. */
  lemma {:induction false} ToggleTransparencyChangesOnlyLight(c: Config, t: bool)
    ensures var before := RenderRequest(c);
            var after := RenderRequest(Merge(c, Empty.(transparentBackground := Some(t))));
            after == before.(options := before.options.(color := before.options.color.(
              light := if t then TransparentLight else OpaqueLight)))
  {
    var c' := Merge(c, Empty.(transparentBackground := Some(t)));
    assert Get(c', Content) == Get(c, Content);
    assert Get(c', Size) == Get(c, Size);
    assert Get(c', ErrorCorrectionLevel) == Get(c, ErrorCorrectionLevel);
    assert Get(c', TransparentBackground) == Flag(t);
  }

  /** A colour in CSS hex notation, as channels 0 to 255. */
  datatype Rgba = Rgba(red: nat, green: nat, blue: nat, alpha: nat)

  function HexDigitValue(ch: char): (r: Option<nat>)
    ensures r.Some? ==> r.value < 16
  {
    if '0' <= ch <= '9' then Some(ch as int - '0' as int)
    else if 'A' <= ch <= 'F' then Some(ch as int - 'A' as int + 10)
    else if 'a' <= ch <= 'f' then Some(ch as int - 'a' as int + 10)
    else None
  }

  function HexByte(hi: char, lo: char): (r: Option<nat>)
    ensures r.Some? ==> r.value < 256
  {
    match (HexDigitValue(hi), HexDigitValue(lo))
    case (Some(h), Some(l)) => Some(16 * h + l)
    case _ => None
  }

  /** `#RRGGBB` (opaque) or `#RRGGBBAA`. */
  function ParseHexColor(s: string): (r: Option<Rgba>)
    ensures r.Some? ==> r.value.red < 256 && r.value.green < 256 && r.value.blue < 256 && r.value.alpha < 256
  {
    if (|s| == 7 || |s| == 9) && s[0] == '#' then
      var alpha := if |s| == 9 then HexByte(s[7], s[8]) else Some(255);
      match (HexByte(s[1], s[2]), HexByte(s[3], s[4]), HexByte(s[5], s[6]), alpha)
      case (Some(r), Some(g), Some(b), Some(a)) => Some(Rgba(r, g, b, a))
      case _ => None
    else None
  }

  /** Modules are opaque black; the background is opaque white, or fully
      transparent when the configuration asks for it. */
  lemma RenderRequestColors(c: Config)
    ensures ParseHexColor(RenderRequest(c).options.color.dark) == Some(Rgba(0, 0, 0, 255))
    ensures ParseHexColor(RenderRequest(c).options.color.light) ==
            Some(if c.transparentBackground then Rgba(0, 0, 0, 0) else Rgba(255, 255, 255, 255))
  {
  }

  /** `qr-code-${Date.now()}.png`. */
  function FileName(timestamp: nat): string
  {
    "qr-code-" + NatToString(timestamp) + ".png"
  }

  /** The timestamp a download file name was made from. */
  function TimestampOf(name: string): Option<nat>
  {
    if |name| >= 13 && name[..8] == "qr-code-" && name[|name| - 4..] == ".png"
       && AllDigits(name[8..|name| - 4])
    then Some(DecimalValue(name[8..|name| - 4]))
    else None
  }

  /** The file name gives its timestamp back, so downloads at different
      milliseconds get different names. */
  lemma {:induction false} FileNameRoundTrip(timestamp: nat)
    ensures TimestampOf(FileName(timestamp)) == Some(timestamp)
  {
    var name := FileName(timestamp);
    assert name[..8] == "qr-code-";
    assert name[|name| - 4..] == ".png";
    assert name[8..|name| - 4] == NatToString(timestamp);
    DecimalValueOfNatToString(timestamp);
  }

  lemma FileNameInjective(t: nat, u: nat)
    requires FileName(t) == FileName(u)
    ensures t == u
  {
    FileNameRoundTrip(t);
    FileNameRoundTrip(u);
  }

  /** `downloadQR`: reject on the render guard, otherwise save the canvas's PNG
      data URL under a name made from the timestamp. */
  function DownloadQR(content: string, canvas: Canvas, now: nat): (r: DownloadAction)
    ensures r.Alert? <==> !ShouldRender(content, canvas)
    ensures r.Alert? ==> r.message == "Please enter content to generate QR code"
    ensures r.Save? ==> canvas.Mounted? && r.href == canvas.pngDataUrl
                        && r.fileName == FileName(now) && TimestampOf(r.fileName) == Some(now)
  {
    if !ShouldRender(content, canvas) then
      Alert(EmptyContentAlert)
    else
      FileNameRoundTrip(now);
      Save(FileName(now), canvas.pngDataUrl)
  }

  /** The panel's state: the two React state cells, the canvas the ref points
      to, and the record of encoder calls and console errors. */
  class PreviewPanel {

    var isGenerating: bool
    var fileSize: string
    var canvas: Canvas
    var encoderCalls: seq<EncodeRequest>
    var consoleErrors: seq<LoggedError>

    constructor (canvas: Canvas)
      ensures !isGenerating && fileSize == "~2.1 KB"
      ensures this.canvas == canvas && encoderCalls == [] && consoleErrors == []
    {
      isGenerating := false;
      fileSize := InitialFileSize;
      this.canvas := canvas;
      encoderCalls := [];
      consoleErrors := [];
    }

    /** `await QRCode.toCanvas(...)`, issued while the flag is raised. */
    method CallEncoder(request: EncodeRequest, encode: EncodeRequest -> EncodeOutcome)
      returns (outcome: EncodeOutcome)
      requires isGenerating
      modifies this`encoderCalls
      ensures outcome == encode(request)
      ensures encoderCalls == old(encoderCalls) + [request]
    {
      encoderCalls := encoderCalls + [request];
      outcome := encode(request);
    }

    /** `generateQRCode`, one call taken as one atomic step. */
    method GenerateQRCode(config: Config, encode: EncodeRequest -> EncodeOutcome)
      returns (result: Generation)
      modifies this
      ensures !ShouldRender(config.content, old(canvas)) ==>
                && result == Skipped
                && isGenerating == old(isGenerating) && fileSize == old(fileSize)
                && canvas == old(canvas) && encoderCalls == old(encoderCalls)
                && consoleErrors == old(consoleErrors)
      ensures ShouldRender(config.content, old(canvas)) ==>
                && !isGenerating
                && encoderCalls == old(encoderCalls) + [RenderRequest(config)]
                && match encode(RenderRequest(config))
                   case Failed(reason) =>
                     && result == Errored(EncoderError(reason))
                     && canvas == old(canvas) && fileSize == old(fileSize)
                     && consoleErrors == old(consoleErrors) + [EncoderError(reason)]
                   case Drawn(url) =>
                     && canvas == Mounted(url)
                     && match Payload(url)
                        case None =>
                          && result == Errored(PayloadMissing)
                          && fileSize == old(fileSize)
                          && consoleErrors == old(consoleErrors) + [PayloadMissing]
                        case Some(payload) =>
                          && result == Rendered
                          && fileSize == SizeLabel(SizeInKB(|payload|))
                          && consoleErrors == old(consoleErrors)
    {
      if !ShouldRender(config.content, canvas) {
        return Skipped;
      }
      isGenerating := true;
      var outcome := CallEncoder(RenderRequest(config), encode);
      match outcome {
        case Failed(reason) =>
          consoleErrors := consoleErrors + [EncoderError(reason)];
          result := Errored(EncoderError(reason));
        case Drawn(url) =>
          canvas := Mounted(url);
          var payload := Payload(url);
          if payload.None? {
            consoleErrors := consoleErrors + [PayloadMissing];
            result := Errored(PayloadMissing);
          } else {
            fileSize := SizeLabel(SizeInKB(|payload.value|));
            result := Rendered;
          }
      }
      isGenerating := false;
    }

    /** React's commit of the canvas's `width` and `height` attributes. */
    method CommitSize(oldSize: int, newSize: int, blank: int -> string)
      modifies this`canvas
      ensures canvas == Committed(old(canvas), oldSize, newSize, blank)
    {
      canvas := Committed(canvas, oldSize, newSize, blank);
    }

    /** The download button's handler: reads the panel and changes nothing; in
        particular it never calls the encoder. */
    method Download(config: Config, now: nat) returns (action: DownloadAction)
      ensures action == DownloadQR(config.content, canvas, now)
    {
      action := DownloadQR(config.content, canvas, now);
    }
  }

  /** A configuration change: the store merges the partial, React commits the
      canvas's new width and height, then the effect that depends on the
      configuration runs one generation with the new value. */
  method ConfigChanged(
    store: ConfigStore, panel: PreviewPanel, updates: Partial,
    encode: EncodeRequest -> EncodeOutcome, blank: int -> string)
    returns (result: Generation)
    modifies store, panel
    ensures store.cfg == Merge(old(store.cfg), updates)
    ensures panel.encoderCalls == old(panel.encoderCalls) +
              if ShouldRender(store.cfg.content, old(panel.canvas)) then [RenderRequest(store.cfg)] else []
    ensures !ShouldRender(store.cfg.content, old(panel.canvas)) ==>
              && result == Skipped
              && panel.isGenerating == old(panel.isGenerating) && panel.fileSize == old(panel.fileSize)
              && panel.canvas == Committed(old(panel.canvas), old(store.cfg.size), store.cfg.size, blank)
              && panel.consoleErrors == old(panel.consoleErrors)
    ensures ShouldRender(store.cfg.content, old(panel.canvas)) ==>
              && !panel.isGenerating
              && match encode(RenderRequest(store.cfg))
                 case Failed(reason) =>
                   && result == Errored(EncoderError(reason))
                   && panel.canvas == Committed(old(panel.canvas), old(store.cfg.size), store.cfg.size, blank)
                   && panel.fileSize == old(panel.fileSize)
                   && panel.consoleErrors == old(panel.consoleErrors) + [EncoderError(reason)]
                 case Drawn(url) =>
                   && panel.canvas == Mounted(url)
                   && match Payload(url)
                      case None =>
                        && result == Errored(PayloadMissing)
                        && panel.fileSize == old(panel.fileSize)
                        && panel.consoleErrors == old(panel.consoleErrors) + [PayloadMissing]
                      case Some(payload) =>
                        && result == Rendered
                        && panel.fileSize == SizeLabel(SizeInKB(|payload|))
                        && panel.consoleErrors == old(panel.consoleErrors)
  {
    var oldSize := store.cfg.size;
    store.Update(updates);
    CommittedKeepsGuard(store.cfg.content, panel.canvas, oldSize, store.cfg.size, blank);
    panel.CommitSize(oldSize, store.cfg.size, blank);
    result := panel.GenerateQRCode(store.cfg, encode);
  }

  /** Mounting the page: the store starts from the defaults, the panel's canvas
      is attached, and the effect runs once with the default record before any
      change. */
  method Mount(picture: string, encode: EncodeRequest -> EncodeOutcome)
    returns (store: ConfigStore, panel: PreviewPanel, result: Generation)
    ensures fresh(store) && fresh(panel)
    ensures store.cfg == Default()
    ensures panel.encoderCalls == [RenderRequest(Default())] && !panel.isGenerating
    ensures result != Skipped
    ensures match encode(RenderRequest(Default()))
            case Failed(reason) =>
              && result == Errored(EncoderError(reason))
              && panel.canvas == Mounted(picture) && panel.fileSize == InitialFileSize
              && panel.consoleErrors == [EncoderError(reason)]
            case Drawn(url) =>
              && panel.canvas == Mounted(url)
              && match Payload(url)
                 case None =>
                   && result == Errored(PayloadMissing)
                   && panel.fileSize == InitialFileSize && panel.consoleErrors == [PayloadMissing]
                 case Some(payload) =>
                   && result == Rendered
                   && panel.fileSize == SizeLabel(SizeInKB(|payload|)) && panel.consoleErrors == []
  {
    store := new ConfigStore();
    panel := new PreviewPanel(Mounted(picture));
    DefaultContentRenders(panel.canvas);
    result := panel.GenerateQRCode(store.cfg, encode);
  }

  /** Clearing the content: nothing is re-rendered, the canvas keeps the
      picture it had and the download is refused. */
  method ClearContentScenario(encode: EncodeRequest -> EncodeOutcome, blank: int -> string, picture: string, now: nat)
  {
    var store := new ConfigStore();
    var panel := new PreviewPanel(Mounted(picture));
    var r := ConfigChanged(store, panel, Empty.(content := Some("")), encode, blank);
    assert store.cfg.content == "";
    assert r == Skipped && panel.canvas == Mounted(picture) && panel.encoderCalls == [];
    var action := panel.Download(store.cfg, now);
    assert action == Alert("Please enter content to generate QR code");
  }

  /** Resizing while the encoder fails: the canvas is left holding the blank
      bitmap of the new size, not the old picture. */
  method ResizeFailureScenario(blank: int -> string, picture: string)
  {
    var store := new ConfigStore();
    var panel := new PreviewPanel(Mounted(picture));
    var fail := (req: EncodeRequest) => Failed("encoder unavailable");
    var r := ConfigChanged(store, panel, Empty.(size := Some(512)), fail, blank);
    assert store.cfg.size == 512;
    DefaultContentRenders(panel.canvas);
    assert r == Errored(EncoderError("encoder unavailable"));
    assert panel.canvas == Mounted(blank(512)) && panel.fileSize == InitialFileSize;
  }
}
