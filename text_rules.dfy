/**
 * The string rules the leaf validators rely on: ECMAScript white space (the
 * class `\s` and what `String.prototype.trim` strips), `trim`, and the email
 * pattern `^[^\s@]+@[^\s@]+\.[^\s@]+$`.
 */
module TextRules {

  /** ECMAScript WhiteSpace and LineTerminator code points. */
  predicate IsSpace(c: char) {
    || c == '\t' || c == '\n' || c == '\U{000B}' || c == '\U{000C}' || c == '\r'
    || c == ' ' || c == '\U{00A0}' || c == '\U{1680}'
    || ('\U{2000}' <= c <= '\U{200A}')
    || c == '\U{2028}' || c == '\U{2029}' || c == '\U{202F}' || c == '\U{205F}'
    || c == '\U{3000}' || c == '\U{FEFF}'
  }

  predicate AllSpace(s: string) {
    forall i | 0 <= i < |s| :: IsSpace(s[i])
  }

  /** How many white-space characters `s` starts with. */
  function LeadingSpace(s: string): (n: nat)
    ensures n <= |s|
    ensures forall i | 0 <= i < n :: IsSpace(s[i])
    ensures n == |s| || !IsSpace(s[n])
  {
    if s != [] && IsSpace(s[0]) then 1 + LeadingSpace(s[1..]) else 0
  }

  /** Where the white space `s` ends with begins. */
  function TrailingSpace(s: string): (n: nat)
    ensures n <= |s|
    ensures forall i | n <= i < |s| :: IsSpace(s[i])
    ensures n == 0 || !IsSpace(s[n - 1])
  {
    if s != [] && IsSpace(s[|s| - 1]) then TrailingSpace(s[..|s| - 1]) else |s|
  }

  /** Strips leading white space: what is removed is all white space, and what remains does not start with any. */
  function TrimStart(s: string): (r: string)
    ensures |r| <= |s| && r == s[|s| - |r|..]
    ensures AllSpace(s[..|s| - |r|])
    ensures r == [] || !IsSpace(r[0])
  {
    s[LeadingSpace(s)..]
  }

  /** Strips trailing white space: what is removed is all white space, and what remains does not end with any. */
  function TrimEnd(s: string): (r: string)
    ensures |r| <= |s| && r == s[..|r|]
    ensures AllSpace(s[|r|..])
    ensures r == [] || !IsSpace(r[|r| - 1])
  {
    s[..TrailingSpace(s)]
  }

  /** `String.prototype.trim`. */
  function Trim(s: string): string {
    TrimEnd(TrimStart(s))
  }

  /** A string trims to nothing exactly when every character of it is white space. */
  lemma TrimEmptyIffAllSpace(s: string)
    ensures Trim(s) == [] <==> AllSpace(s)
  {
    var t := TrimStart(s);
    if t != [] {
      assert !AllSpace(s) by { assert s[|s| - |t|] == t[0]; }
    } else {
      assert s[..|s|] == s;
    }
  }

  /** A character the class `[^\s@]` admits. */
  predicate IsPlain(c: char) {
    c != '@' && !IsSpace(c)
  }

  predicate AllPlain(s: string) {
    forall i | 0 <= i < |s| :: IsPlain(s[i])
  }

  /** One or more characters of `[^\s@]`, that is `[^\s@]+`. */
  predicate PlainRun(s: string) {
    |s| > 0 && AllPlain(s)
  }

  /** The language of `^[^\s@]+@[^\s@]+\.[^\s@]+$`, written as the regular expression reads. */
  ghost predicate MatchesEmailPattern(s: string) {
    exists local: string, host: string, tld: string
      | PlainRun(local) && PlainRun(host) && PlainRun(tld)
      :: s == local + "@" + host + "." + tld
  }

  /** The part after the `@`: no white space and no `@`, with a dot that is neither first nor last. */
  predicate IsDottedDomain(d: string) {
    AllPlain(d) && exists dot | 0 < dot < |d| - 1 :: d[dot] == '.'
  }

  /** The pattern as a direct check: a non-empty local part, an `@`, and a dotted domain. */
  predicate IsEmailShaped(s: string) {
    exists at | 0 < at < |s| :: s[at] == '@' && AllPlain(s[..at]) && IsDottedDomain(s[at + 1..])
  }

  lemma AllPlainSlice(d: string, lo: nat, hi: nat)
    requires AllPlain(d) && lo <= hi <= |d|
    ensures AllPlain(d[lo..hi])
  {
    forall i | 0 <= i < hi - lo ensures IsPlain(d[lo..hi][i]) {
      assert d[lo..hi][i] == d[lo + i];
    }
  }

  lemma SplitAround<T>(d: seq<T>, k: nat)
    requires k < |d|
    ensures d == d[..k] + [d[k]] + d[k + 1..]
  {
  }

  lemma PatternWitness(s: string, local: string, host: string, tld: string)
    requires PlainRun(local) && PlainRun(host) && PlainRun(tld)
    requires s == local + "@" + host + "." + tld
    ensures MatchesEmailPattern(s)
  {
  }

  /** A dotted domain is a plain run, a dot, and a plain run. */
  lemma DomainParts(d: string) returns (host: string, tld: string)
    requires IsDottedDomain(d)
    ensures PlainRun(host) && PlainRun(tld)
    ensures d == host + "." + tld
  {
    var dot :| 0 < dot < |d| - 1 && d[dot] == '.';
    AllPlainSlice(d, 0, dot);
    AllPlainSlice(d, dot + 1, |d|);
    host, tld := d[..dot], d[dot + 1..];
    SplitAround(d, dot);
    assert [d[dot]] == ".";
  }

  lemma ShapedMatchesPattern(s: string)
    requires IsEmailShaped(s)
    ensures MatchesEmailPattern(s)
  {
    var at :| 0 < at < |s| && s[at] == '@' && AllPlain(s[..at]) && IsDottedDomain(s[at + 1..]);
    var host, tld := DomainParts(s[at + 1..]);
    var local := s[..at];
    SplitAround(s, at);
    assert [s[at]] == "@";
    assert s == local + "@" + (host + "." + tld);
    assert local + "@" + (host + "." + tld) == local + "@" + host + "." + tld;
    PatternWitness(s, local, host, tld);
  }

  lemma PatternIsShaped(s: string)
    requires MatchesEmailPattern(s)
    ensures IsEmailShaped(s)
  {
    var local: string, host: string, tld: string :|
      PlainRun(local) && PlainRun(host) && PlainRun(tld) && s == local + "@" + host + "." + tld;
    var at := |local|;
    var d := host + "." + tld;
    assert s == local + "@" + d;
    assert s[at] == '@' && s[..at] == local && s[at + 1..] == d;
    assert d[|host|] == '.';
    assert AllPlain(d) by {
      forall i | 0 <= i < |d| ensures IsPlain(d[i]) {
        if i < |host| { assert d[i] == host[i]; }
        else if i > |host| { assert d[i] == tld[i - |host| - 1]; }
      }
    }
    assert IsDottedDomain(d);
  }

  /** The direct check accepts exactly the strings of the pattern's language. */
  lemma EmailShapeIsPattern(s: string)
    ensures IsEmailShaped(s) <==> MatchesEmailPattern(s)
  {
    if IsEmailShaped(s) { ShapedMatchesPattern(s); }
    if MatchesEmailPattern(s) { PatternIsShaped(s); }
  }
}
