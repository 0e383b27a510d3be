/** What the configuration validators share: the error they return and
    `strings.TrimSpace`, over ASCII whitespace. */
module ConfigCommon {

  /** `InvalidConfigurationParameterError{Parameter, Reason}`. */
  datatype ConfigError = InvalidConfigurationParameter(parameter: string, reason: string)

  /** The ASCII white-space characters: space, tab, newline, vertical tab,
      form feed and carriage return. */
  predicate IsSpace(c: char)
  {
    c == ' ' || c == '\t' || c == '\n' || c == '\r' || c == 11 as char || c == 12 as char
  }

  predicate AllSpace(s: string)
  {
    forall i :: 0 <= i < |s| ==> IsSpace(s[i])
  }

  /** How many white-space characters `s` starts with. */
  function LeadingSpace(s: string): (k: nat)
    ensures k <= |s|
    ensures k < |s| ==> !IsSpace(s[k])
    ensures forall i :: 0 <= i < k ==> IsSpace(s[i])
    decreases |s|
  {
    if s != [] && IsSpace(s[0]) then
      var k' := LeadingSpace(s[1..]);
      assert forall i :: 1 <= i < k' + 1 ==> s[1..][i - 1] == s[i];
      k' + 1
    else 0
  }

  /** The length of `s` once its trailing white space is cut off. */
  function TrailingEnd(s: string): (e: nat)
    ensures e <= |s|
    ensures e > 0 ==> !IsSpace(s[e - 1])
    ensures forall i :: e <= i < |s| ==> IsSpace(s[i])
    decreases |s|
  {
    if s != [] && IsSpace(s[|s| - 1]) then TrailingEnd(s[..|s| - 1]) else |s|
  }

  /** `strings.TrimSpace`: `s` without leading and trailing white space. The
      result is the run of `s` after its leading white space; it neither starts
      nor ends with white space, and everything cut away around it is white
      space. */
  function TrimSpace(s: string): (r: string)
    ensures r == [] || (!IsSpace(r[0]) && !IsSpace(r[|r| - 1]))
    ensures LeadingSpace(s) + |r| <= |s|
    ensures r == s[LeadingSpace(s)..LeadingSpace(s) + |r|]
    ensures forall i :: LeadingSpace(s) + |r| <= i < |s| ==> IsSpace(s[i])
  {
    var k := LeadingSpace(s);
    if k == |s| then []
    else
      var e := TrailingEnd(s);
      assert k < e;
      s[k..e]
  }

  /** Trimming twice is trimming once. */
  lemma TrimSpaceIdempotent(s: string)
    ensures TrimSpace(TrimSpace(s)) == TrimSpace(s)
  {
    var t := TrimSpace(s);
    if t != [] {
      assert LeadingSpace(t) == 0 && TrailingEnd(t) == |t|;
      assert t[0..|t|] == t;
    }
  }

  /** A string trims to nothing exactly when it is white space only. */
  lemma TrimSpaceEmptyIff(s: string)
    ensures TrimSpace(s) == [] <==> AllSpace(s)
  {
    var k := LeadingSpace(s);
    if TrimSpace(s) != [] {
      assert s[k] == TrimSpace(s)[0];
    }
  }
}
