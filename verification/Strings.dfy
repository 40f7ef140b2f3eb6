// C strings as the daemon handles them: octets without the terminating NUL.
module Strings {

  datatype Option<+T> = None | Some(value: T)

  /** ToUpper of the character tables: only the ASCII letters are folded. */
  function Upper(c: char): char {
    if 'a' <= c <= 'z' then (c as int - 32) as char else c
  }

  /** irccmp(s, t) == 0. */
  predicate SameFolded(s: string, t: string) {
    |s| == |t| && forall i :: 0 <= i < |s| ==> Upper(s[i]) == Upper(t[i])
  }

  /** strlcpy into a buffer of n + 1 octets. */
  function Truncate(s: string, n: nat): string {
    if |s| <= n then s else s[..n]
  }

  // ---------------------------------------------------------------- words

  /** A parameter that survives a trip through a protocol line unchanged. */
  predicate Word(s: string) {
    s != "" && s[0] != ':' && ' ' !in s
  }

  function SkipSpaces(s: string): (r: string)
    ensures |r| <= |s|
  {
    if s != "" && s[0] == ' ' then SkipSpaces(s[1..]) else s
  }

  function FirstWord(s: string): (r: string)
    ensures |r| <= |s| && s[..|r|] == r
  {
    if s == "" || s[0] == ' ' then "" else [s[0]] + FirstWord(s[1..])
  }

  /** The parameter loop of the message parser: at most `room` parameters, the last of
      which keeps the rest of the line, as does one introduced by a colon. */
  function Parameters(s: string, room: nat): seq<string>
    decreases |s|
  {
    var t := SkipSpaces(s);
    if t == "" then []
    else if t[0] == ':' then [t[1..]]
    else if room <= 1 then [t]
    else
      var w := FirstWord(t);
      if w == "" then [] else [w] + Parameters(t[|w|..], room - 1)
  }

  function Join(words: seq<string>): string {
    if words == [] then ""
    else
      var before := Join(words[..|words| - 1]);
      if before == "" then words[|words| - 1] else before + " " + words[|words| - 1]
  }

  predicate Words(words: seq<string>) {
    forall i :: 0 <= i < |words| ==> Word(words[i])
  }

  lemma {:induction false} FirstWordOf(w: string, rest: string)
    requires ' ' !in w
    requires rest == "" || rest[0] == ' '
    ensures FirstWord(w + rest) == w
  {
    if w == "" {
      assert w + rest == rest;
    } else {
      assert (w + rest)[0] == w[0];
      assert (w + rest)[1..] == w[1..] + rest;
      FirstWordOf(w[1..], rest);
    }
  }

  lemma JoinNotEmpty(words: seq<string>)
    requires Words(words) && words != []
    ensures Join(words) != ""
  {
  }

  lemma {:induction false} JoinFront(words: seq<string>)
    requires |words| >= 2 && Words(words)
    ensures Join(words) == words[0] + " " + Join(words[1..])
  {
    var n := |words| - 1;
    JoinNotEmpty(words[..n]);
    if n == 1 {
      assert words[..1] == [words[0]] && words[1..] == [words[1]] && words[..1][..0] == words[1..][..0] == [];
    } else {
      JoinNotEmpty(words[1..][..n - 1]);
      JoinFront(words[..n]);
      assert words[1..][..n - 1] == words[..n][1..];
      calc {
        Join(words);
        Join(words[..n]) + " " + words[n];
        words[0] + " " + Join(words[..n][1..]) + " " + words[n];
        words[0] + " " + (Join(words[1..][..n - 1]) + " " + words[n]);
        words[0] + " " + Join(words[1..]);
      }
    }
  }

  /** Parameters joined by single spaces are read back unchanged. */
  lemma {:induction false} JoinRoundTrip(words: seq<string>, room: nat)
    requires Words(words) && |words| <= room
    ensures Parameters(Join(words), room) == words
    decreases |words|
  {
    if |words| == 1 {
      FirstWordOf(words[0], "");
      assert words[0] + "" == words[0];
    } else if |words| >= 2 {
      JoinFront(words);
      ParametersCons(words[0], Join(words[1..]), room);
      JoinRoundTrip(words[1..], room - 1);
    }
  }

  lemma ParametersCons(w: string, rest: string, room: nat)
    requires Word(w) && room >= 2
    ensures Parameters(w + " " + rest, room) == [w] + Parameters(rest, room - 1)
  {
    var s := w + " " + rest;
    FirstWordOf(w, " " + rest);
    assert s == w + (" " + rest);
    assert s[0] == w[0];
    assert s[|w|..] == " " + rest;
    SkipOne(rest);
    assert Parameters(" " + rest, room - 1) == Parameters(rest, room - 1) by {
      assert SkipSpaces(" " + rest) == SkipSpaces(rest);
    }
  }

  lemma SkipOne(rest: string)
    ensures SkipSpaces(" " + rest) == SkipSpaces(rest)
  {
    assert (" " + rest)[1..] == rest;
  }

  function TotalLength(words: seq<string>): nat {
    if words == [] then 0 else |words[0]| + 1 + TotalLength(words[1..])
  }

  /** The parameters read from a text, with one separator each, are no longer than it. */
  lemma {:induction false} ParametersFit(s: string, room: nat)
    ensures TotalLength(Parameters(s, room)) <= |s| + 1
    decreases |s|
  {
    var t := SkipSpaces(s);
    if t != "" && t[0] != ':' && room > 1 {
      var w := FirstWord(t);
      if w != "" {
        var rest := t[|w|..];
        if rest != "" {
          FirstWordStops(t);
          assert rest[0] == ' ';
          var rest' := rest[1..];
          assert rest == " " + rest';
          SkipOne(rest');
          ParametersFit(rest', room - 1);
          assert Parameters(rest, room - 1) == Parameters(rest', room - 1);
        }
        assert ([w] + Parameters(rest, room - 1))[1..] == Parameters(rest, room - 1);
      }
    }
  }

  lemma {:induction false} FirstWordStops(s: string)
    requires |FirstWord(s)| < |s|
    ensures s[|FirstWord(s)|] == ' '
  {
    if s[0] != ' ' { FirstWordStops(s[1..]); }
  }

  lemma {:induction false} JoinLength(words: seq<string>)
    requires words != [] && Words(words)
    ensures |Join(words)| + 1 == TotalLength(words)
  {
    if |words| >= 2 {
      JoinFront(words);
      JoinLength(words[1..]);
    }
  }

  // ---------------------------------------------------------------- numbers

  function Digit(d: nat): char
    requires d < 10
  {
    ('0' as int + d) as char
  }

  predicate IsDigit(c: char) { '0' <= c <= '9' }

  /** sprintf("%d") of a non-negative number. */
  function Itoa(n: nat): string {
    if n < 10 then [Digit(n)] else Itoa(n / 10) + [Digit(n % 10)]
  }

  /** The value of the leading digits of s, continuing from acc. */
  function LeadingDigits(s: string, acc: nat): nat {
    if s != "" && IsDigit(s[0]) then LeadingDigits(s[1..], acc * 10 + (s[0] as int - '0' as int)) else acc
  }

  predicate IsBlank(c: char) {
    c == ' ' || '\t' <= c <= '\r'
  }

  function SkipBlanks(s: string): string {
    if s != "" && IsBlank(s[0]) then SkipBlanks(s[1..]) else s
  }

  const MAX_LONG: int := 0x7fff_ffff_ffff_ffff

  /** atoi as (int) strtol: the 64-bit value saturates, the conversion to int wraps. */
  function Atoi(s: string): int {
    var t := SkipBlanks(s);
    ToInt32(if t != "" && t[0] == '-' then 0 - LeadingDigits(t[1..], 0)
            else if t != "" && t[0] == '+' then LeadingDigits(t[1..], 0)
            else LeadingDigits(t, 0))
  }

  function ToInt32(v: int): (r: int)
    ensures -0x8000_0000 <= r < 0x8000_0000
  {
    var long := if v > MAX_LONG then MAX_LONG else if v < -MAX_LONG - 1 then -MAX_LONG - 1 else v;
    var low := long % 0x1_0000_0000;
    if low >= 0x8000_0000 then low - 0x1_0000_0000 else low
  }

  lemma {:induction false} LeadingDigitsSnoc(s: string, c: char, acc: nat)
    requires forall i :: 0 <= i < |s| ==> IsDigit(s[i])
    requires IsDigit(c)
    ensures LeadingDigits(s + [c], acc) == LeadingDigits(s, acc) * 10 + (c as int - '0' as int)
  {
    if s == "" {
      assert s + [c] == [c];
      assert [c][1..] == "";
    } else {
      assert (s + [c])[1..] == s[1..] + [c];
      LeadingDigitsSnoc(s[1..], c, acc * 10 + (s[0] as int - '0' as int));
    }
  }

  lemma {:induction false} ItoaDigits(n: nat)
    ensures Itoa(n) != "" && forall i :: 0 <= i < |Itoa(n)| ==> IsDigit(Itoa(n)[i])
    ensures LeadingDigits(Itoa(n), 0) == n
  {
    if n < 10 {
      assert [Digit(n)][1..] == "";
    } else {
      ItoaDigits(n / 10);
      LeadingDigitsSnoc(Itoa(n / 10), Digit(n % 10), 0);
    }
  }

  /** The limit a peer parses is the limit that was printed. */
  lemma AtoiItoa(n: nat)
    requires n < 0x8000_0000
    ensures Atoi(Itoa(n)) == n
  {
    ItoaDigits(n);
    assert IsDigit(Itoa(n)[0]);
    assert SkipBlanks(Itoa(n)) == Itoa(n);
  }

  // ---------------------------------------------------------------- keys

  const KEYLEN := 23

  predicate KeyChar(c: char) {
    ' ' < c && c as int < 0x80 && c != ':' && c != ','
  }

  function SevenBit(c: char): char {
    ((c as int) % 0x80) as char
  }

  /** fix_key: of the first KEYLEN octets, keep what is printable after masking to seven bits. */
  function FixKey(s: string): string {
    CleanKey(Truncate(s, KEYLEN))
  }

  function CleanKey(s: string): string {
    if s == "" then ""
    else CleanKey(s[..|s| - 1]) + if KeyChar(SevenBit(s[|s| - 1])) then [SevenBit(s[|s| - 1])] else ""
  }

  lemma {:induction false} CleanKeyShape(s: string)
    ensures |CleanKey(s)| <= |s|
    ensures forall i :: 0 <= i < |CleanKey(s)| ==> KeyChar(CleanKey(s)[i])
  {
    if s != "" { CleanKeyShape(s[..|s| - 1]); }
  }

  lemma {:induction false} CleanKeyFixed(s: string)
    requires forall i :: 0 <= i < |s| ==> KeyChar(s[i])
    ensures CleanKey(s) == s
  {
    if s != "" {
      var n := |s| - 1;
      CleanKeyFixed(s[..n]);
      assert s == s[..n] + [s[n]];
    }
  }

  /** Which octets make a key: of the first 23, their low seven bits, except blanks, controls, colons and commas. */
  lemma FixKeySnoc(s: string, c: char)
    ensures FixKey("") == ""
    ensures FixKey(s + [c]) == FixKey(s) +
      if |s| < 23 && c as int % 128 > 32 && c as int % 128 != 44 && c as int % 128 != 58 then [(c as int % 128) as char]
      else ""
  {
    if |s| < 23 {
      assert (s + [c])[..|s|] == s;
    } else {
      assert Truncate(s + [c], KEYLEN) == Truncate(s, KEYLEN);
    }
  }

  /** Cleaning a cleaned key changes nothing, and a cleaned key is a single parameter. */
  lemma FixKeyIdempotent(s: string)
    ensures FixKey(FixKey(s)) == FixKey(s)
    ensures |FixKey(s)| <= KEYLEN
    ensures FixKey(s) != "" ==> Word(FixKey(s))
  {
    CleanKeyShape(Truncate(s, KEYLEN));
    CleanKeyFixed(FixKey(s));
    assert FixKey(s) != "" ==> KeyChar(FixKey(s)[0]);
  }
}
