/**
 The functions DataCheck calls but does not define: SHA-256, the CSV reader, Unicode
 character classes, the regular-expression engine and the float and date grammars.
 They are the fields of one value that every operation receives, so each theorem
 holds for all possible choices of them.
 */
module External {
  import opened Wrappers

  type Byte = x: int | 0 <= x < 256

  type Bytes = seq<Byte>

  /** A binary64 value: only finite ones carry a magnitude. */
  datatype Float = Finite(value: real) | Infinite(positive: bool) | NotANumber

  /** The order `<` of binary64, false as soon as one side is not a number. */
  predicate Less(a: Float, b: Float) {
    match (a, b)
    case (Finite(x), Finite(y)) => x < y
    case (Finite(_), Infinite(p)) => p
    case (Infinite(p), Finite(_)) => !p
    case (Infinite(p), Infinite(q)) => !p && q
    case (_, _) => false
  }

  /** What the CSV reader yields next: a record, or the error at which it stops. */
  datatype Record = Row(fields: seq<string>) | Malformed | Undecodable

  datatype World = World(
    digest: Bytes -> Bytes,
    records: Bytes -> seq<Record>,
    isSpace: char -> bool,
    isControl: char -> bool,
    compiles: string -> bool,
    contains: (string, string) -> bool,
    number: string -> Option<Float>,
    toFloat: int -> Float,
    isInteger: string -> bool,
    isBoolean: string -> bool,
    isDate: string -> bool,
    isDatetime: string -> bool)

  /** Python's `str.strip` with no argument. */
  function Strip(w: World, s: string): (r: string)
    ensures |r| <= |s|
    decreases |s|
  {
    if s != "" && w.isSpace(s[0]) then Strip(w, s[1..])
    else if s != "" && w.isSpace(s[|s| - 1]) then Strip(w, s[..|s| - 1])
    else s
  }

  /** Stripping leaves a text alone exactly when no white space is at either end. */
  lemma TrimmedIff(w: World, s: string)
    ensures Strip(w, s) == s <==> s == "" || (!w.isSpace(s[0]) && !w.isSpace(s[|s| - 1]))
  {
  }

  predicate Blank(w: World, s: string) {
    forall i :: 0 <= i < |s| ==> w.isSpace(s[i])
  }

  /** Stripping leaves nothing exactly when every character is white space. */
  lemma {:induction false} StripEmptyIffBlank(w: World, s: string)
    ensures Strip(w, s) == "" <==> Blank(w, s)
    decreases |s|
  {
    if s == "" {
    } else if w.isSpace(s[0]) {
      StripEmptyIffBlank(w, s[1..]);
      assert Blank(w, s[1..]) ==> forall i :: 0 < i < |s| ==> s[i] == s[1..][i - 1];
    } else if w.isSpace(s[|s| - 1]) {
      StripEmptyIffBlank(w, s[..|s| - 1]);
      assert s[..|s| - 1][0] == s[0];
    }
  }
}
