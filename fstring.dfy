/** Python f-string rendering, enough to tell when building a prompt raises. A replacement field
    `{expr:spec}` formats the (string) value of `expr` with `format(value, spec)`; the spec may
    itself hold replacement fields, which are rendered first. */
module FString {
  import opened Wrappers
  import opened Text

  /** A piece of an f-string: literal text, or a replacement field holding the string value of its
      expression and its format spec (empty for a plain `{expr}`). */
  datatype Piece = Lit(text: string) | Field(value: string, spec: seq<Piece>)

  predicate IsAlign(c: char) { c == '<' || c == '>' || c == '^' }

  /** The parts of a format spec that are valid for a `str` value. */
  datatype StrSpec = StrSpec(fill: char, align: char, width: nat, precision: Option<nat>)

  /** The number of leading decimal digits of `s`. */
  function DigitRun(s: string): (n: nat)
    ensures n <= |s| && forall i :: 0 <= i < n ==> IsDigit(s[i])
    ensures n < |s| ==> !IsDigit(s[n])
  {
    if |s| > 0 && IsDigit(s[0]) then 1 + DigitRun(s[1..]) else 0
  }

  /** `[[fill]align][0][width][.precision][s]`; anything else (a sign, `#`, `=`, a grouping option,
      another presentation type, trailing text) makes `format` raise ValueError for a string. A `0`
      before the width, when no fill character is given, makes '0' the fill and leaves the alignment
      as it was (Python 3.10 and later); as a digit it does not change the width. */
  function ParseStrSpec(spec: string): Option<StrSpec>
  {
    var fillGiven := |spec| >= 2 && IsAlign(spec[1]);
    var (given, align, rest) :=
      if fillGiven then (spec[0], spec[1], spec[2..])
      else if |spec| >= 1 && IsAlign(spec[0]) then (' ', spec[0], spec[1..])
      else (' ', '<', spec);
    var fill := if !fillGiven && |rest| > 0 && rest[0] == '0' then '0' else given;
    var w := DigitRun(rest);
    var width := DecimalValue(rest[..w]);
    var afterWidth := rest[w..];
    if |afterWidth| > 0 && afterWidth[0] == '.' then
      var p := DigitRun(afterWidth[1..]);
      var tail := afterWidth[1 + p..];
      if p > 0 && (tail == "" || tail == "s") then
        Some(StrSpec(fill, align, width, Some(DecimalValue(afterWidth[1..1 + p]))))
      else None
    else if afterWidth == "" || afterWidth == "s" then Some(StrSpec(fill, align, width, None))
    else None
  }

  function Repeat(c: char, n: nat): (r: string)
    ensures |r| == n && forall i :: 0 <= i < n ==> r[i] == c
  {
    seq(n, _ => c)
  }

  /** Truncate to the precision, then pad to the width on the side(s) the alignment names. */
  function Apply(f: StrSpec, value: string): (r: string)
    ensures |r| >= f.width
  {
    var v := if f.precision.Some? && f.precision.value < |value| then value[..f.precision.value] else value;
    if |v| >= f.width then v
    else
      var gap := f.width - |v|;
      if f.align == '>' then Repeat(f.fill, gap) + v
      else if f.align == '^' then Repeat(f.fill, gap / 2) + v + Repeat(f.fill, gap - gap / 2)
      else v + Repeat(f.fill, gap)
  }

  /** `format(value, spec)` for a string value. */
  function FormatStr(value: string, spec: string): (r: Call<string>)
    ensures spec == "" ==> r == Returned(value)
    ensures r.Raised? <==> ParseStrSpec(spec).None?
    ensures r.Raised? ==> r.error == FormatError(spec)
  {
    if spec == "" then
      assert ParseStrSpec(spec) == Some(StrSpec(' ', '<', 0, None));
      Returned(value)
    else
      match ParseStrSpec(spec)
      case None => Raised(FormatError(spec))
      case Some(f) => Returned(Apply(f, value))
  }

  /** A `0` before the width pads with zeros on the side the alignment names, unless a fill
      character is given: `format("ab", "05")` is "ab000", `format("ab", ">05")` is "000ab" and
      `format("ab", "x>05")` is "xxxab". */
  lemma ZeroFlagFill()
    ensures FormatStr("ab", "05") == Returned("ab000")
    ensures FormatStr("ab", ">05") == Returned("000ab")
    ensures FormatStr("ab", "x>05") == Returned("xxxab")
  {
    assert DigitRun("05") == 2 by {
      assert "05"[1..] == "5" && "5"[1..] == "";
    }
    assert DecimalValue("05") == 5 by {
      assert "05"[..1] == "0";
    }
    assert "05"[..2] == "05" && "05"[2..] == "";
    assert !IsAlign('0') && !IsAlign('5') && IsAlign('>');
    assert ParseStrSpec("05") == Some(StrSpec('0', '<', 5, None));
    assert ParseStrSpec(">05") == Some(StrSpec('0', '>', 5, None)) by {
      assert ">05"[1..] == "05";
    }
    assert ParseStrSpec("x>05") == Some(StrSpec('x', '>', 5, None)) by {
      assert "x>05"[2..] == "05";
    }
    assert Repeat('0', 3) == "000" && Repeat('x', 3) == "xxx";
    assert Apply(StrSpec('0', '<', 5, None), "ab") == "ab" + "000" == "ab000";
    assert Apply(StrSpec('0', '>', 5, None), "ab") == "000" + "ab" == "000ab";
    assert Apply(StrSpec('x', '>', 5, None), "ab") == "xxx" + "ab" == "xxxab";
  }

  /** Evaluating an f-string left to right: the first field that raises aborts the whole string. */
  function Render(ps: seq<Piece>): Call<string>
    decreases ps
  {
    if ps == [] then Returned("")
    else
      match RenderPiece(ps[0])
      case Raised(e) => Raised(e)
      case Returned(a) =>
        match Render(ps[1..])
        case Raised(e) => Raised(e)
        case Returned(b) => Returned(a + b)
  }

  function RenderPiece(p: Piece): Call<string>
    decreases p
  {
    match p
    case Lit(t) => Returned(t)
    case Field(v, spec) =>
      match Render(spec)
      case Raised(e) => Raised(e)
      case Returned(s) => FormatStr(v, s)
  }

  /** A piece that cannot raise: literal text or a field without a format spec. */
  predicate Plain(p: Piece) { p.Lit? || p.spec == [] }

  function PlainText(p: Piece): string
    requires Plain(p)
  {
    if p.Lit? then p.text else p.value
  }

  /** An f-string made of literal text and spec-less fields renders to the concatenation of its
      pieces. */
  lemma {:induction false} RenderPlain(ps: seq<Piece>)
    requires forall i :: 0 <= i < |ps| ==> Plain(ps[i])
    ensures Render(ps) == Returned(Concat(seq(|ps|, i requires 0 <= i < |ps| => PlainText(ps[i]))))
  {
    var texts := seq(|ps|, i requires 0 <= i < |ps| => PlainText(ps[i]));
    if ps != [] {
      RenderPlain(ps[1..]);
      var rest := seq(|ps[1..]|, i requires 0 <= i < |ps[1..]| => PlainText(ps[1..][i]));
      assert texts == [texts[0]] + rest;
      ConcatAppend([texts[0]], rest);
      assert [texts[0]][..0] == [];
      assert Concat([texts[0]]) == "" + texts[0] == texts[0];
      assert Concat(texts) == texts[0] + Concat(rest);
      assert RenderPiece(ps[0]) == Returned(texts[0]);
      assert Render(ps[1..]) == Returned(Concat(rest));
    }
  }

  /** When the pieces before position `k` render and piece `k` raises, the whole f-string raises
      that same exception. */
  lemma {:induction false} RenderRaisesAt(ps: seq<Piece>, k: nat, e: PyException)
    requires k < |ps|
    requires forall i :: 0 <= i < k ==> RenderPiece(ps[i]).Returned?
    requires RenderPiece(ps[k]) == Raised(e)
    ensures Render(ps) == Raised(e)
  {
    if k > 0 {
      RenderRaisesAt(ps[1..], k - 1, e);
    }
  }
}
