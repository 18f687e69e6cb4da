/** The QR configuration record, its defaults, the partial-record overlay
    `{ ...prev, ...updates }` and the state cell that holds the current value
    (client/src/pages/home.tsx). */
module QrConfig {

  import opened Wrappers

  /** The four symbolic error-correction levels. */
  datatype Level = L | M | Q | H

  /** The five-field configuration record. */
  datatype Config = Config(
    content: string,
    size: int,
    errorCorrectionLevel: Level,
    pixelDensity: int,
    transparentBackground: bool)

  /** A `Partial<QRConfig>`: `None` means the key is absent from the object. */
  datatype Partial = Partial(
    content: Option<string>,
    size: Option<int>,
    errorCorrectionLevel: Option<Level>,
    pixelDensity: Option<int>,
    transparentBackground: Option<bool>)

  /** The partial with no keys at all, `{}`. */
  const Empty: Partial := Partial(None, None, None, None, None)

  /** The keys of the record, and the values a key can hold; together they give
      the key-by-key view that object spread works on. */
  datatype Field = Content | Size | ErrorCorrectionLevel | PixelDensity | TransparentBackground

  datatype Value = Text(text: string) | Number(number: int) | LevelValue(level: Level) | Flag(flag: bool)

  function Get(c: Config, f: Field): Value
  {
    match f
    case Content => Text(c.content)
    case Size => Number(c.size)
    case ErrorCorrectionLevel => LevelValue(c.errorCorrectionLevel)
    case PixelDensity => Number(c.pixelDensity)
    case TransparentBackground => Flag(c.transparentBackground)
  }

  function Lookup(p: Partial, f: Field): Option<Value>
  {
    match f
    case Content => if p.content.Some? then Some(Text(p.content.value)) else None
    case Size => if p.size.Some? then Some(Number(p.size.value)) else None
    case ErrorCorrectionLevel =>
      if p.errorCorrectionLevel.Some? then Some(LevelValue(p.errorCorrectionLevel.value)) else None
    case PixelDensity => if p.pixelDensity.Some? then Some(Number(p.pixelDensity.value)) else None
    case TransparentBackground =>
      if p.transparentBackground.Some? then Some(Flag(p.transparentBackground.value)) else None
  }

  /** Two configurations that agree on every key are the same record. */
  lemma {:induction false} ConfigExtensionality(a: Config, b: Config)
    requires forall f :: Get(a, f) == Get(b, f)
    ensures a == b
  {
    assert Get(a, Content) == Get(b, Content);
    assert Get(a, Size) == Get(b, Size);
    assert Get(a, ErrorCorrectionLevel) == Get(b, ErrorCorrectionLevel);
    assert Get(a, PixelDensity) == Get(b, PixelDensity);
    assert Get(a, TransparentBackground) == Get(b, TransparentBackground);
  }

  /** The value the state cell starts from. */
  function Default(): (c: Config)
    ensures ValidConfig(c)
  {
    Config("https://example.com", 256, M, 8, false)
  }

  /** The supported raster sizes, offered by the size radio group. */
  predicate ValidSize(n: int)
  {
    n == 256 || n == 512 || n == 1024 || n == 2048
  }

  /** The pixel-density slider: 4 to 12 in steps of 1. */
  predicate ValidDensity(n: int)
  {
    4 <= n <= 12
  }

  /** A configuration every widget can have produced. The level needs no check:
      the datatype admits only L, M, Q and H. */
  predicate ValidConfig(c: Config)
  {
    ValidSize(c.size) && ValidDensity(c.pixelDensity)
  }

  predicate ValidPartial(p: Partial)
  {
    && (p.size.Some? ==> ValidSize(p.size.value))
    && (p.pixelDensity.Some? ==> ValidDensity(p.pixelDensity.value))
  }

  /** `{ ...prev, ...updates }`: a key present in the partial takes the partial's
      value, every other key keeps the previous one. */
  function Merge(prev: Config, updates: Partial): (r: Config)
    ensures forall f :: Get(r, f) == if Lookup(updates, f).Some? then Lookup(updates, f).value else Get(prev, f)
  {
    Config(
      if updates.content.Some? then updates.content.value else prev.content,
      if updates.size.Some? then updates.size.value else prev.size,
      if updates.errorCorrectionLevel.Some? then updates.errorCorrectionLevel.value else prev.errorCorrectionLevel,
      if updates.pixelDensity.Some? then updates.pixelDensity.value else prev.pixelDensity,
      if updates.transparentBackground.Some? then updates.transparentBackground.value else prev.transparentBackground)
  }

  /** `{ ...p, ...q }` on two partials: the keys of both, q's value winning. */
  function Overlay(p: Partial, q: Partial): (r: Partial)
    ensures forall f :: Lookup(r, f) == if Lookup(q, f).Some? then Lookup(q, f) else Lookup(p, f)
  {
    Partial(
      if q.content.Some? then q.content else p.content,
      if q.size.Some? then q.size else p.size,
      if q.errorCorrectionLevel.Some? then q.errorCorrectionLevel else p.errorCorrectionLevel,
      if q.pixelDensity.Some? then q.pixelDensity else p.pixelDensity,
      if q.transparentBackground.Some? then q.transparentBackground else p.transparentBackground)
  }

  /** Keys absent from the partial keep their previous values. */
  lemma MergeKeepsAbsent(prev: Config, updates: Partial, f: Field)
    requires Lookup(updates, f).None?
    ensures Get(Merge(prev, updates), f) == Get(prev, f)
  {
  }

  /** Keys present in the partial take the partial's value. */
  lemma MergeSetsPresent(prev: Config, updates: Partial, f: Field)
    requires Lookup(updates, f).Some?
    ensures Get(Merge(prev, updates), f) == Lookup(updates, f).value
  {
  }

  /** Merging `{}` changes nothing. */
  lemma {:induction false} MergeEmpty(prev: Config)
    ensures Merge(prev, Empty) == prev
  {
    var r := Merge(prev, Empty);
    forall f ensures Get(r, f) == Get(prev, f) {
      assert Lookup(Empty, f).None?;
    }
    ConfigExtensionality(r, prev);
  }

  /** Two successive merges are one merge with the overlaid partial. */
  lemma {:induction false} MergeOverlay(c: Config, p: Partial, q: Partial)
    ensures Merge(Merge(c, p), q) == Merge(c, Overlay(p, q))
  {
    var a, b := Merge(Merge(c, p), q), Merge(c, Overlay(p, q));
    forall f ensures Get(a, f) == Get(b, f) {
    }
    ConfigExtensionality(a, b);
  }

  /** Merging the same partial twice is merging it once. */
  lemma {:induction false} MergeIdempotent(c: Config, p: Partial)
    ensures Merge(Merge(c, p), p) == Merge(c, p)
  {
    var a, b := Merge(Merge(c, p), p), Merge(c, p);
    forall f ensures Get(a, f) == Get(b, f) {
    }
    ConfigExtensionality(a, b);
  }

  /** Last write wins: a later partial that sets every key an earlier one set
      erases every trace of the earlier one. */
  lemma {:induction false} MergeLastWriteWins(c: Config, p: Partial, q: Partial)
    requires forall f :: Lookup(p, f).Some? ==> Lookup(q, f).Some?
    ensures Merge(Merge(c, p), q) == Merge(c, q)
  {
    var a, b := Merge(Merge(c, p), q), Merge(c, q);
    forall f ensures Get(a, f) == Get(b, f) {
    }
    ConfigExtensionality(a, b);
  }

  /** Merges of partials with no key in common commute. */
  lemma {:induction false} MergeDisjointCommute(c: Config, p: Partial, q: Partial)
    requires forall f :: !(Lookup(p, f).Some? && Lookup(q, f).Some?)
    ensures Merge(Merge(c, p), q) == Merge(Merge(c, q), p)
  {
    var a, b := Merge(Merge(c, p), q), Merge(Merge(c, q), p);
    forall f ensures Get(a, f) == Get(b, f) {
    }
    ConfigExtensionality(a, b);
  }

  /** A valid partial keeps a valid configuration valid. */
  lemma MergePreservesValid(c: Config, p: Partial)
    requires ValidConfig(c) && ValidPartial(p)
    ensures ValidConfig(Merge(c, p))
  {
  }

  /** The `qrConfig` state cell: it holds one immutable record, which every
      update replaces with a new one. */
  class ConfigStore {

    var cfg: Config

    /** `useState` with the documented defaults. */
    constructor ()
      ensures cfg == Config("https://example.com", 256, M, 8, false)
      ensures ValidConfig(cfg)
    {
      cfg := Default();
    }

    /** `updateConfig`: `setQRConfig(prev => ({ ...prev, ...updates }))`. */
    method Update(updates: Partial)
      modifies this
      ensures cfg == Merge(old(cfg), updates)
      ensures old(ValidConfig(cfg)) && ValidPartial(updates) ==> ValidConfig(cfg)
    {
      cfg := Merge(cfg, updates);
    }
  }
}
