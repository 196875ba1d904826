/** White space as `String.prototype.trim` and `parseInt` skip it (the
    ASCII part of the ECMAScript white-space and line-terminator set). */
module Text {
  predicate IsSpace(c: char) {
    c == ' ' || c == '\t' || c == '\n' || c == '\r' || c == '\U{000B}' || c == '\U{000C}'
  }

  /** The string after its leading white space. */
  function TrimStart(s: string): (t: string)
    ensures |t| <= |s| && t == s[|s| - |t|..]
    ensures t == [] || !IsSpace(t[0])
    ensures forall i :: 0 <= i < |s| - |t| ==> IsSpace(s[i])
  {
    if s != [] && IsSpace(s[0]) then TrimStart(s[1..]) else s
  }

  /** The string before its trailing white space. */
  function TrimEnd(s: string): (t: string)
    ensures |t| <= |s| && t == s[..|t|]
    ensures t == [] || !IsSpace(t[|t| - 1])
    ensures forall i :: |t| <= i < |s| ==> IsSpace(s[i])
  {
    if s != [] && IsSpace(s[|s| - 1]) then TrimEnd(s[..|s| - 1]) else s
  }

  /** `s.trim()`. */
  function Trim(s: string): string {
    TrimEnd(TrimStart(s))
  }

  /** A trimmed string is the original without the white space at either
      end: it starts and ends with a non-space, and it is empty exactly
      when the string is all space. */
  lemma TrimmedShape(s: string)
    ensures var t := Trim(s);
            var k := |s| - |TrimStart(s)|;
            s[k..k + |t|] == t
            && (t == [] || (!IsSpace(t[0]) && !IsSpace(t[|t| - 1])))
            && (t == [] <==> forall i :: 0 <= i < |s| ==> IsSpace(s[i]))
  {
    TrimSlice(s);
    TrimEnds(s);
    TrimStartEmpty(s);
    TrimEndEmpty(TrimStart(s));
  }

  /** The trimmed string sits in the original right after the leading space. */
  lemma TrimSlice(s: string)
    ensures var k := |s| - |TrimStart(s)|;
            s[k..k + |Trim(s)|] == Trim(s)
  {
    var u := TrimStart(s);
    var t := TrimEnd(u);
    var k := |s| - |u|;
    assert u == s[k..];
    assert t == u[..|t|];
    assert s[k..k + |t|] == s[k..][..|t|];
  }

  /** Neither end of a non-empty trimmed string is a space. */
  lemma TrimEnds(s: string)
    ensures Trim(s) == [] || (!IsSpace(Trim(s)[0]) && !IsSpace(Trim(s)[|Trim(s)| - 1]))
  {
    var u := TrimStart(s);
    var t := TrimEnd(u);
    if t != [] {
      assert t[0] == u[0];
    }
  }

  /** Only an all-space string loses everything to `TrimStart`. */
  lemma TrimStartEmpty(s: string)
    ensures TrimStart(s) == [] <==> forall i :: 0 <= i < |s| ==> IsSpace(s[i])
  {
  }

  /** A string that does not start with a space keeps something under `TrimEnd`. */
  lemma TrimEndEmpty(u: string)
    requires u == [] || !IsSpace(u[0])
    ensures TrimEnd(u) == [] <==> u == []
  {
  }

  /** Trimming twice is trimming once. */
  lemma TrimIdempotent(s: string)
    ensures Trim(Trim(s)) == Trim(s)
  {
    var t := Trim(s);
    TrimmedShape(s);
    assert TrimStart(t) == t;
    if t != [] {
      assert TrimEnd(t) == t;
    }
  }
}
