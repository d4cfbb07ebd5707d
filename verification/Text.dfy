/** Character and string primitives with Python's meaning. */
module Text {
  /** `str.isspace` for one character. */
  predicate IsSpace(c: char) {
    var n := c as int;
    || 0x09 <= n <= 0x0D || 0x1C <= n <= 0x20 || n == 0x85 || n == 0xA0 || n == 0x1680
    || 0x2000 <= n <= 0x200A || n == 0x2028 || n == 0x2029 || n == 0x202F || n == 0x205F || n == 0x3000
  }

  predicate AllSpace(s: string) {
    forall i :: 0 <= i < |s| ==> IsSpace(s[i])
  }

  /** `s.lstrip()`. */
  function Lstrip(s: string): string {
    if s != "" && IsSpace(s[0]) then Lstrip(s[1..]) else s
  }

  function Rstrip(s: string): string {
    if s != "" && IsSpace(s[|s| - 1]) then Rstrip(s[..|s| - 1]) else s
  }

  /** `s.strip()`. */
  function Strip(s: string): string {
    Rstrip(Lstrip(s))
  }

  /** A string that stripping leaves alone. */
  predicate Trimmed(s: string) {
    s == "" || (!IsSpace(s[0]) && !IsSpace(s[|s| - 1]))
  }

  lemma SpaceCons(first: char, back: string, r: string)
    requires |r| <= |back| && back == back[..|back| - |r|] + r && AllSpace(back[..|back| - |r|]) && IsSpace(first)
    ensures var s := [first] + back; s == s[..|s| - |r|] + r && AllSpace(s[..|s| - |r|])
  {
    var s := [first] + back;
    assert s[..|s| - |r|] == [first] + back[..|back| - |r|];
  }

  lemma {:induction false} LstripDropsSpace(s: string)
    ensures var r := Lstrip(s);
      && |r| <= |s| && s == s[..|s| - |r|] + r
      && AllSpace(s[..|s| - |r|])
      && (r != "" ==> !IsSpace(r[0]))
  {
    if s != "" && IsSpace(s[0]) {
      LstripDropsSpace(s[1..]);
      SpaceCons(s[0], s[1..], Lstrip(s[1..]));
      assert s == [s[0]] + s[1..];
    }
  }

  lemma SpaceSnoc(front: string, last: char, r: string)
    requires |r| <= |front| && front == r + front[|r|..] && AllSpace(front[|r|..]) && IsSpace(last)
    ensures front + [last] == r + (front + [last])[|r|..] && AllSpace((front + [last])[|r|..])
  {
    assert (front + [last])[|r|..] == front[|r|..] + [last];
  }

  lemma {:induction false} RstripDropsSpace(s: string)
    ensures var r := Rstrip(s);
      && |r| <= |s| && s == r + s[|r|..]
      && AllSpace(s[|r|..])
      && (r != "" ==> !IsSpace(r[|r| - 1]))
  {
    if s != "" && IsSpace(s[|s| - 1]) {
      var front, last := s[..|s| - 1], s[|s| - 1];
      RstripDropsSpace(front);
      SpaceSnoc(front, last, Rstrip(front));
      assert s == front + [last];
    }
  }

  lemma StripIsTrimmed(s: string)
    ensures Trimmed(Strip(s))
    ensures Trimmed(s) ==> Strip(s) == s
  {
    LstripDropsSpace(s);
    RstripDropsSpace(Lstrip(s));
  }

  /** What strips to nothing is all whitespace. */
  lemma BlankIsSpace(s: string)
    ensures Strip(s) == "" ==> AllSpace(s)
  {
    LstripDropsSpace(s);
    RstripDropsSpace(Lstrip(s));
  }

  predicate StartsWith(s: string, prefix: string) {
    prefix <= s
  }

  predicate OccursAt(s: string, sub: string, j: int) {
    0 <= j <= |s| && sub <= s[j..]
  }

  lemma OccursOnce(s: string, c: char, j: int)
    ensures OccursAt(s, [c], j) <==> 0 <= j < |s| && s[j] == c
  {
    assert 0 <= j < |s| ==> s[j..][0] == s[j] && ([c] <= s[j..] <==> s[j..][..1] == [c]);
  }

  /** The first position at which `sub` occurs in `s`, or -1, like `s.find(sub)`. */
  function Find(s: string, sub: string): (k: int)
    ensures -1 <= k
    ensures k >= 0 ==> OccursAt(s, sub, k)
    ensures forall j :: OccursAt(s, sub, j) ==> 0 <= k <= j
  {
    if sub <= s then
      assert s[0..] == s;
      0
    else if s == "" then -1
    else
      var k := Find(s[1..], sub);
      assert forall j :: OccursAt(s, sub, j) ==> j != 0 && OccursAt(s[1..], sub, j - 1) by {
        forall j | OccursAt(s, sub, j) ensures j != 0 && OccursAt(s[1..], sub, j - 1) {
          assert s[0..] == s;
          assert j > 0 ==> s[1..][j - 1..] == s[j..];
        }
      }
      if k < 0 then -1
      else
        assert s[1..][k..] == s[k + 1..];
        k + 1
  }

  predicate Contains(s: string, sub: string) {
    Find(s, sub) >= 0
  }

  function Digit(d: nat): char
    requires d < 10
  {
    "0123456789"[d]
  }

  /** The decimal numeral of n. */
  function Decimal(n: nat): (s: string)
    ensures s != ""
  {
    if n < 10 then [Digit(n)] else Decimal(n / 10) + [Digit(n % 10)]
  }

  /** The code points that count as whitespace. */
  lemma SpacesAre(c: char)
    ensures IsSpace(c) <==> c as int in {
      9, 10, 11, 12, 13, 28, 29, 30, 31, 32, 133, 160, 5760, 8192, 8193, 8194, 8195, 8196, 8197, 8198, 8199,
      8200, 8201, 8202, 8232, 8233, 8239, 8287, 12288}
  {
  }

  /** The number that a string of digits denotes. */
  function Denoted(s: string): int {
    if s == "" then 0 else 10 * Denoted(s[..|s| - 1]) + (s[|s| - 1] as int - '0' as int)
  }

  /** A numeral denotes its number, in digits, without a leading zero. */
  lemma {:induction false} DecimalDenotes(n: nat)
    ensures var s := Decimal(n);
      Denoted(s) == n && (forall i :: 0 <= i < |s| ==> '0' <= s[i] <= '9') && (s[0] == '0' ==> n == 0)
  {
    if n < 10 {
      assert [Digit(n)][..0] == [] && Denoted([]) == 0;
    } else {
      DecimalDenotes(n / 10);
      var s := Decimal(n);
      assert s[..|s| - 1] == Decimal(n / 10) && s[0] == Decimal(n / 10)[0];
    }
  }
}
