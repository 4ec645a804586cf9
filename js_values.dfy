/** The JavaScript values the Apps Script endpoint handles: spreadsheet cells as
    `getValues()` returns them, parsed JSON values, and the three bits of
    JavaScript semantics the script leans on: truthiness, `toString()` and
    `String.prototype.trim()`. */
module JsValues {

  datatype Option<+T> = None | Some(value: T)

  datatype Result<+T, +E> = Success(value: T) | Failure(error: E)

  // ---------------------------------------------------------------------------
  // Spreadsheet cells
  // ---------------------------------------------------------------------------

  /** A cell of a reference sheet. An empty cell reads as `Text("")`. */
  datatype Cell = Text(text: string) | Number(number: int) | Flag(flag: bool)

  /** JavaScript truthiness of `row[col]`; `None` is the `undefined` read past
      the end of a row. `''`, `0` and `false` are falsy, everything else is
      truthy, including a string of blanks. */
  predicate Truthy(c: Option<Cell>) {
    match c
    case None => false
    case Some(Text(s)) => s != ""
    case Some(Number(n)) => n != 0
    case Some(Flag(b)) => b
  }

  /** `cell.toString()`. */
  function ToText(c: Cell): string {
    match c
    case Text(s) => s
    case Number(n) => IntToString(n)
    case Flag(b) => if b then "true" else "false"
  }

  /** `cell ? cell.toString().trim() : ''`, the idiom the script uses for every
      optional column. */
  function CellText(c: Option<Cell>): string {
    if Truthy(c) then Trim(ToText(c.value)) else ""
  }

  /** A text cell reads as its trimmed text (`''` is falsy and trims to
      itself). */
  lemma CellTextOfText(s: string)
    ensures CellText(Some(Text(s))) == Trim(s)
  {
    if s == "" {
      assert TrimStart(s) == s;
    }
  }

  // ---------------------------------------------------------------------------
  // Number to decimal text
  // ---------------------------------------------------------------------------

  predicate IsDigit(ch: char) { '0' <= ch <= '9' }

  predicate AllDigits(s: string) {
    forall k :: 0 <= k < |s| ==> IsDigit(s[k])
  }

  function DigitChar(d: nat): (ch: char)
    requires d < 10
    ensures IsDigit(ch) && ch as int - '0' as int == d
  {
    "0123456789"[d]
  }

  /** Decimal digits of `n`, most significant first, without leading zeros. */
  function NatToString(n: nat): (s: string)
    ensures |s| > 0 && AllDigits(s)
    ensures s[0] == '0' <==> n == 0
    ensures n == 0 ==> s == "0"
    decreases n
  {
    if n < 10 then [DigitChar(n)] else NatToString(n / 10) + [DigitChar(n % 10)]
  }

  /** Number's `toString()` on an integer value. */
  function IntToString(n: int): string {
    if n < 0 then "-" + NatToString(-n) else NatToString(n)
  }

  /** The value of a string of decimal digits. */
  function DecimalValue(s: string): nat
    requires AllDigits(s)
  {
    if s == [] then 0
    else DecimalValue(s[..|s| - 1]) * 10 + (s[|s| - 1] as int - '0' as int)
  }

  /** Reading back the digits `toString()` writes gives the number again. */
  lemma {:induction false} DecimalRoundTrip(n: nat)
    ensures DecimalValue(NatToString(n)) == n
  {
    if n >= 10 {
      var s := NatToString(n);
      assert s[..|s| - 1] == NatToString(n / 10);
      DecimalRoundTrip(n / 10);
    }
  }

  // ---------------------------------------------------------------------------
  // String.prototype.trim
  // ---------------------------------------------------------------------------

  /** The characters `trim()` removes: ECMAScript WhiteSpace (tab, vertical
      tab, form feed, space, no-break space, byte order mark and the other
      space separators) and LineTerminator (LF, CR, U+2028, U+2029). */
  predicate IsWhiteSpace(ch: char) {
    || ch == '\t' || ch == '\n' || ch == '\U{000B}' || ch == '\U{000C}' || ch == '\r'
    || ch == ' ' || ch == '\U{00A0}' || ch == '\U{1680}'
    || ('\U{2000}' <= ch <= '\U{200A}')
    || ch == '\U{2028}' || ch == '\U{2029}' || ch == '\U{202F}' || ch == '\U{205F}'
    || ch == '\U{3000}' || ch == '\U{FEFF}'
  }

  predicate AllWhiteSpace(s: string) {
    forall k :: 0 <= k < |s| ==> IsWhiteSpace(s[k])
  }

  /** `r` is `s` with a run of white space removed at each end. */
  ghost predicate Strips(s: string, r: string) {
    exists i, j :: 0 <= i <= j <= |s| && s[i..j] == r && AllWhiteSpace(s[..i]) && AllWhiteSpace(s[j..])
  }

  function TrimStart(s: string): (r: string)
    ensures |r| <= |s| && r == s[|s| - |r|..]
    ensures AllWhiteSpace(s[..|s| - |r|])
    ensures r == [] || !IsWhiteSpace(r[0])
  {
    if |s| > 0 && IsWhiteSpace(s[0]) then
      var r := TrimStart(s[1..]);
      assert s[..|s| - |r|] == [s[0]] + s[1..][..|s| - 1 - |r|];
      r
    else s
  }

  function TrimEnd(s: string): (r: string)
    ensures |r| <= |s| && r == s[..|r|]
    ensures AllWhiteSpace(s[|r|..])
    ensures r == [] || !IsWhiteSpace(r[|r| - 1])
  {
    if |s| > 0 && IsWhiteSpace(s[|s| - 1]) then
      var r := TrimEnd(s[..|s| - 1]);
      assert s[|r|..] == s[..|s| - 1][|r|..] + [s[|s| - 1]];
      r
    else s
  }

  /** `s.trim()`: the longest middle part of `s` that neither starts nor ends
      with white space, once only white space has been cut from each end. */
  function Trim(s: string): (r: string)
    ensures r == [] || (!IsWhiteSpace(r[0]) && !IsWhiteSpace(r[|r| - 1]))
  {
    TrimEnd(TrimStart(s))
  }

  /** What `trim()` keeps is a middle part of its argument, with only white
      space cut away on either side. */
  lemma TrimStrips(s: string)
    ensures Strips(s, Trim(s))
  {
    var t := TrimStart(s);
    var r := TrimEnd(t);
    var i := |s| - |t|;
    assert s[i..i + |r|] == r;
    assert s[i + |r|..] == t[|r|..];
  }

  /** A string that neither starts nor ends with white space is its own trim. */
  lemma TrimKeeps(s: string)
    requires s == [] || (!IsWhiteSpace(s[0]) && !IsWhiteSpace(s[|s| - 1]))
    ensures Trim(s) == s
  {
    assert TrimStart(s) == s;
  }

  /** `trim()` cuts exactly the white space around a part that neither
      starts nor ends with white space: together with `TrimStrips`, this makes
      the result of `trim()` the unique such middle part. */
  lemma TrimPadded(pre: string, s: string, post: string)
    requires AllWhiteSpace(pre) && AllWhiteSpace(post)
    requires s == [] || (!IsWhiteSpace(s[0]) && !IsWhiteSpace(s[|s| - 1]))
    ensures Trim(pre + s + post) == s
  {
    if s == [] {
      assert pre + s + post == pre + post;
      var w := pre + post;
      assert AllWhiteSpace(w) by {
        forall k | 0 <= k < |w| ensures IsWhiteSpace(w[k]) {
          if k >= |pre| { assert w[k] == post[k - |pre|]; }
        }
      }
      AllWhiteSpaceTrimStart(w);
    } else {
      assert pre + s + post == pre + (s + post);
      TrimStartPadded(pre, s + post);
      TrimEndPadded(s, post);
    }
  }

  /** An all-white string trims away entirely. */
  lemma AllWhiteSpaceTrimStart(w: string)
    requires AllWhiteSpace(w)
    ensures TrimStart(w) == []
  {
  }

  lemma {:induction false} TrimStartPadded(pre: string, t: string)
    requires AllWhiteSpace(pre)
    requires t == [] || !IsWhiteSpace(t[0])
    ensures TrimStart(pre + t) == t
  {
    if pre != [] {
      assert (pre + t)[1..] == pre[1..] + t;
      TrimStartPadded(pre[1..], t);
    }
  }

  lemma {:induction false} TrimEndPadded(t: string, post: string)
    requires AllWhiteSpace(post)
    requires t == [] || !IsWhiteSpace(t[|t| - 1])
    ensures TrimEnd(t + post) == t
  {
    if post != [] {
      var u := t + post;
      assert u[..|u| - 1] == t + post[..|post| - 1];
      TrimEndPadded(t, post[..|post| - 1]);
    }
  }

  /** Trimming twice changes nothing more. */
  lemma TrimIdempotent(s: string)
    ensures Trim(Trim(s)) == Trim(s)
  {
    TrimKeeps(Trim(s));
  }

  /** The decimal text of an integer has nothing for `trim()` to remove. */
  lemma {:induction false} TrimIntToString(n: int)
    ensures Trim(IntToString(n)) == IntToString(n)
  {
    var s := IntToString(n);
    assert !IsWhiteSpace(s[0]) && !IsWhiteSpace(s[|s| - 1]) by {
      if n >= 0 {
        assert IsDigit(s[0]) && IsDigit(s[|s| - 1]);
      } else {
        var d := NatToString(-n);
        assert s == "-" + d && s[|s| - 1] == d[|d| - 1];
        assert IsDigit(d[|d| - 1]);
      }
    }
  }

  // ---------------------------------------------------------------------------
  // Parsed JSON values
  // ---------------------------------------------------------------------------

  /** A value `JSON.parse` can produce. Numbers are kept to integers. */
  datatype Json =
    | JNull
    | JBool(b: bool)
    | JNumber(n: int)
    | JString(s: string)
    | JArray(items: seq<Json>)
    | JObject(members: map<string, Json>)

  /** `v.key` on a value that is not `null`: only an object has the
      properties the script asks for; on anything else the read is
      `undefined`. */
  function Get(v: Json, key: string): Option<Json> {
    if v.JObject? && key in v.members then Some(v.members[key]) else None
  }

  /** JavaScript truthiness of a property read (`None` is `undefined`). */
  predicate JsTruthy(v: Option<Json>) {
    match v
    case None => false
    case Some(JNull) => false
    case Some(JBool(b)) => b
    case Some(JNumber(n)) => n != 0
    case Some(JString(s)) => s != ""
    case Some(JArray(_)) => true
    case Some(JObject(_)) => true
  }

  /** `v || ''`. */
  function OrEmpty(v: Option<Json>): Json {
    if JsTruthy(v) then v.value else JString("")
  }
}
