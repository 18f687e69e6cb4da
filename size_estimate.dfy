/** The "File Size" label of the preview panel: a byte estimate from the length
    of the base64 payload of the canvas's data URL, rounded to kilobytes. */
module SizeEstimate {

  import opened Wrappers
  import opened JsText

  /** The label shown before the first successful render. */
  const InitialFileSize: string := "~2.1 KB"

  /** The payload of a data URL, `dataURL.split(',')[1]`; when the URL has no
      comma the element is `undefined` and reading its length throws. With the
      data URL syntax of section 3 of RFC 2397 the payload is everything after
      the comma that ends the media type. */
  function Payload(dataUrl: string): (r: Option<string>)
    ensures r.Some? <==> ',' in dataUrl
    ensures r.Some? ==> ',' !in r.value
    ensures r.Some? ==> r.value == TakeUntil(dataUrl[IndexOf(dataUrl, ',') + 1..], ',')
  {
    var parts := Split(dataUrl, ',');
    JoinSplit(dataUrl, ',');
    if |parts| < 2 then
      None
    else
      SplitSecondPiece(dataUrl, ',');
      var k := |parts[0]|;
      IndexOfFirst(dataUrl, ',', k);
      var after := dataUrl[k + 1..];
      assert after[..|parts[1]|] == parts[1];
      assert |parts[1]| == |after| || after[|parts[1]|] == ',';
      IndexOfFirst(after, ',', |parts[1]|);
      Some(parts[1])
  }

  /** A PNG data URL, `data:image/png;base64,` followed by base64 text (whose
      alphabet, section 4 of RFC 4648, has no comma), yields that text. */
  lemma {:induction false} PayloadOfPngDataUrl(base64: string)
    requires ',' !in base64
    ensures Payload("data:image/png;base64," + base64) == Some(base64)
  {
    var head := "data:image/png;base64";
    assert "data:image/png;base64," + base64 == head + [','] + base64;
    SplitAfterPrefix(head, base64, ',');
    SplitNoSeparator(base64, ',');
  }

  /** A canvas with no pixels gives `data:,`, whose payload is empty; the text
      after the first comma is taken, not any comma-free piece. */
  lemma PayloadOfEmptyDataUrl()
    ensures Payload("data:,") == Some("")
    ensures Payload("a,bcd") == Some("bcd")
  {
    assert IndexOf("data:,", ',') == 5 by { IndexOfFirst("data:,", ',', 5); }
    assert IndexOf("a,bcd", ',') == 1 by { IndexOfFirst("a,bcd", ',', 1); }
    assert "a,bcd"[2..] == "bcd";
    assert IndexOf("bcd", ',') == 3 by { IndexOfFirst("bcd", ',', 3); }
    assert ',' in "a,bcd" by { assert "a,bcd"[1] == ','; }
    var r := Payload("a,bcd");
    assert r.Some?;
    assert r.value == TakeUntil("a,bcd"[2..], ',');
    assert TakeUntil("bcd", ',') == "bcd"[..3] == "bcd";
  }

  /** `Math.round(x)`: the integer nearest to x, halves rounded up. */
  function MathRound(x: real): (r: int)
    ensures r as real - 0.5 <= x < r as real + 0.5
  {
    (x + 0.5).Floor
  }

  /** `(base64Length * 3) / 4`: three bytes for every four base64 characters. */
  function SizeInBytes(base64Length: nat): real
  {
    (base64Length * 3) as real / 4.0
  }

  /** `Math.round(sizeInBytes / 1024)` in integer arithmetic. */
  function SizeInKB(base64Length: nat): nat
  {
    (3 * base64Length + 2048) / 4096
  }

  /** The integer form is exactly the rounded real quotient. */
  lemma {:induction false} SizeInKBIsRounded(base64Length: nat)
    ensures SizeInKB(base64Length) == MathRound(SizeInBytes(base64Length) / 1024.0)
  {
    var n := 3 * base64Length;
    var q, m := (n + 2048) / 4096, (n + 2048) % 4096;
    assert n + 2048 == 4096 * q + m && 0 <= m < 4096;
    var x := SizeInBytes(base64Length) / 1024.0;
    assert x == n as real / 4096.0;
    assert q as real - 0.5 <= x < q as real + 0.5;
    var r := MathRound(x);
    assert r as real - 0.5 <= x < r as real + 0.5;
    assert r == q;
  }

  /** A longer payload never shows a smaller size. */
  lemma {:induction false} SizeInKBMonotonic(shorter: nat, longer: nat)
    requires shorter <= longer
    ensures SizeInKB(shorter) <= SizeInKB(longer)
  {
    var a, b := 3 * shorter + 2048, 3 * longer + 2048;
    assert a == 4096 * (a / 4096) + a % 4096;
    assert b == 4096 * (b / 4096) + b % 4096;
    if a / 4096 > b / 4096 {
      assert false;
    }
  }

  /** `~${sizeInKB < 1 ? '< 1' : sizeInKB} KB`. */
  function SizeLabel(kb: nat): string
  {
    "~" + (if kb < 1 then "< 1" else NatToString(kb)) + " KB"
  }

  /** The label reads "~< 1 KB" exactly when the estimate is under half a
      kilobyte, that is when three times the payload length is under 2048. */
  lemma {:induction false} SizeLabelBelowOne(base64Length: nat)
    ensures SizeLabel(SizeInKB(base64Length)) == "~< 1 KB" <==> 3 * base64Length < 2048
  {
    var kb := SizeInKB(base64Length);
    if kb >= 1 {
      var shown := SizeLabel(kb);
      assert shown[1] == NatToString(kb)[0];
      assert shown[1] != '<';
    }
  }

  /** Otherwise the shown carries the kilobyte count in decimal, which can be
      read back from between "~" and " KB". */
  lemma {:induction false} SizeLabelReadsBack(kb: nat)
    requires kb >= 1
    ensures var shown := SizeLabel(kb);
            && |shown| >= 5 && shown[0] == '~' && shown[|shown| - 3..] == " KB"
            && AllDigits(shown[1..|shown| - 3])
            && DecimalValue(shown[1..|shown| - 3]) == kb
  {
    var shown := SizeLabel(kb);
    assert shown[1..|shown| - 3] == NatToString(kb);
    DecimalValueOfNatToString(kb);
  }

  /** No render ever produces the initial "~2.1 KB": computed labels show a
      whole number of kilobytes. */
  lemma {:induction false} InitialFileSizeNeverComputed(kb: nat)
    ensures SizeLabel(kb) != InitialFileSize
  {
    var shown := SizeLabel(kb);
    if kb < 1 {
      assert shown[1] == '<' != InitialFileSize[1];
    } else {
      var digits := NatToString(kb);
      assert shown == "~" + digits + " KB";
      if |shown| == |InitialFileSize| {
        assert shown[2] == digits[1];
        assert IsDigit(digits[1]) && !IsDigit(InitialFileSize[2]);
      }
    }
  }

  /** Length of the padded base64 text of n bytes (section 4 of RFC 4648). */
  function Base64Length(bytes: nat): nat
  {
    4 * ((bytes + 2) / 3)
  }

  /** For padded base64 the estimate `3 * L / 4` overstates the true byte count
      by at most the two padding bytes. */
  lemma {:induction false} EstimateOvershootIsPadding(bytes: nat)
    ensures bytes <= 3 * Base64Length(bytes) / 4 <= bytes + 2
    ensures bytes as real <= SizeInBytes(Base64Length(bytes)) <= (bytes + 2) as real
  {
    var q := (bytes + 2) / 3;
    assert bytes + 2 == 3 * q + (bytes + 2) % 3;
    assert 3 * Base64Length(bytes) == 4 * (3 * q);
    assert 3 * Base64Length(bytes) / 4 == 3 * q;
    assert SizeInBytes(Base64Length(bytes)) == (3 * q) as real;
  }
}
