/** The layer-name sanitising of DxfExportComponent: characters that may
    not appear in a file name become '_', and '_' is trimmed from both
    ends. */
module DxfExport {
  import opened Text

  /** The characters added to the platform's invalid file-name
      characters. */
  const FixedInvalid: seq<char> := [' ', '.', ':', '/', '\\', '?', '*', '"', '<', '>', '|']

  /** Path.GetInvalidFileNameChars() followed by the fixed characters, in
      the order the loop visits them. */
  function Invalids(platformInvalid: seq<char>): seq<char>
  {
    platformInvalid + FixedInvalid
  }

  predicate IsUnderscore(c: char)
  {
    c == '_'
  }

  /** Each character of s, turned into '_' when it is invalid. */
  function Underscored(s: string, invalid: seq<char>): (r: string)
    ensures |r| == |s|
    ensures forall i :: 0 <= i < |s| ==> r[i] == (if s[i] in invalid then '_' else s[i])
  {
    seq(|s|, i requires 0 <= i < |s| => if s[i] in invalid then '_' else s[i])
  }

  /** What SanitizeLayerName returns: "Default" for a blank name, else the
      name with its invalid characters turned into '_' and '_' trimmed
      from both ends. */
  function Sanitized(name: string, platformInvalid: seq<char>): string
  {
    if IsBlank(name) then "Default"
    else TrimWith(Underscored(name, Invalids(platformInvalid)), IsUnderscore)
  }

  /** SanitizeLayerName: one Replace(c, '_') per invalid character, in
      order, then Trim('_'). */
  method SanitizeLayerName(name: string, platformInvalid: seq<char>) returns (r: string)
    ensures r == Sanitized(name, platformInvalid)
  {
    if IsBlank(name) {
      return "Default";
    }
    var invalids := platformInvalid + FixedInvalid;
    var s := name;
    for k := 0 to |invalids|
      invariant |s| == |name|
      invariant forall i :: 0 <= i < |s| ==> s[i] == (if name[i] in invalids[..k] then '_' else name[i])
    {
      assert invalids[..k + 1] == invalids[..k] + [invalids[k]];
      s := ReplaceChar(s, invalids[k], '_');
    }
    assert invalids[..|invalids|] == invalids;
    assert s == Underscored(name, invalids);
    r := TrimWith(s, IsUnderscore);
  }

  /** For a non-blank name the result is a contiguous middle part of the
      name with the invalid characters turned into '_', everything cut off
      on either side having been '_' or invalid; so it is never longer than
      the name. */
  lemma SanitizedSlice(name: string, platformInvalid: seq<char>)
    requires !IsBlank(name)
    ensures var r := Sanitized(name, platformInvalid);
            var inv := Invalids(platformInvalid);
            var k := LeadCount(Underscored(name, inv), IsUnderscore);
            && k + |r| <= |name|
            && (forall i :: 0 <= i < |r| ==> r[i] == (if name[k + i] in inv then '_' else name[k + i]))
            && (forall i :: 0 <= i < k ==> name[i] == '_' || name[i] in inv)
            && (forall i :: k + |r| <= i < |name| ==> name[i] == '_' || name[i] in inv)
  {
    var inv := Invalids(platformInvalid);
    var u := Underscored(name, inv);
    TrimWithShape(u, IsUnderscore);
    var r := TrimWith(u, IsUnderscore);
    var k := LeadCount(u, IsUnderscore);
    forall i | 0 <= i < |r| ensures r[i] == (if name[k + i] in inv then '_' else name[k + i]) {
      assert r[i] == u[k + i];
    }
  }

  /** Trimming '_' from a string whose characters are '_' or valid leaves
      only valid characters, with no '_' at either end. */
  lemma TrimmedClean(u: string, inv: seq<char>)
    requires '_' !in inv
    requires forall i :: 0 <= i < |u| ==> u[i] == '_' || u[i] !in inv
    ensures var r := TrimWith(u, IsUnderscore);
            && (forall i :: 0 <= i < |r| ==> r[i] !in inv)
            && (r != [] ==> r[0] != '_' && r[|r| - 1] != '_')
  {
    TrimWithShape(u, IsUnderscore);
    var r := TrimWith(u, IsUnderscore);
    var k := LeadCount(u, IsUnderscore);
    forall i | 0 <= i < |r| ensures r[i] !in inv {
      assert r[i] == u[k + i];
    }
  }

  /** For a non-blank name no invalid character is left, as long as '_'
      itself is a valid file-name character, and the result neither starts
      nor ends with '_'. */
  lemma SanitizedClean(name: string, platformInvalid: seq<char>)
    requires !IsBlank(name)
    requires '_' !in platformInvalid
    ensures var r := Sanitized(name, platformInvalid);
            && (forall i :: 0 <= i < |r| ==> r[i] !in Invalids(platformInvalid))
            && (r != [] ==> r[0] != '_' && r[|r| - 1] != '_')
  {
    var inv := Invalids(platformInvalid);
    assert '_' !in inv;
    TrimmedClean(Underscored(name, inv), inv);
  }

  /** A result with something other than white space in it is sanitised
      already: a second pass returns it unchanged. */
  lemma Idempotent(name: string, platformInvalid: seq<char>)
    requires '_' !in platformInvalid
    requires !IsBlank(name) && !IsBlank(Sanitized(name, platformInvalid))
    ensures Sanitized(Sanitized(name, platformInvalid), platformInvalid) == Sanitized(name, platformInvalid)
  {
    var r := Sanitized(name, platformInvalid);
    var inv := Invalids(platformInvalid);
    SanitizedClean(name, platformInvalid);
    assert Sanitized(r, platformInvalid) == TrimWith(Underscored(r, inv), IsUnderscore);
    assert Underscored(r, inv) == r;
    TrimWithNoop(r, IsUnderscore);
  }

  /** The fallback name is kept by a second pass unless the platform
      forbids one of its letters. */
  lemma DefaultKept(platformInvalid: seq<char>)
    requires forall i :: 0 <= i < |platformInvalid| ==> platformInvalid[i] !in "Default"
    ensures Sanitized("Default", platformInvalid) == "Default"
  {
    var d: string := "Default";
    assert !IsWhiteSpace(d[0]);
    assert forall i :: 0 <= i < |d| ==> d[i] !in Invalids(platformInvalid);
    assert Underscored(d, Invalids(platformInvalid)) == d;
    TrimWithNoop(d, IsUnderscore);
  }

  /** A name made only of invalid characters sanitises to the empty
      string, not to "Default". */
  lemma AllDotsGiveEmpty()
    ensures Sanitized("...", []) == []
  {
    var u := Underscored("...", Invalids([]));
    assert !IsWhiteSpace('.');
    assert u == "___";
    assert LeadCount(u, IsUnderscore) == 3;
  }

  /** A non-blank name can sanitise to a blank one, which a second pass
      turns into "Default": with a platform that allows '\t', the name
      "\t." gives "\t". */
  lemma NotIdempotentOnBlankResult()
    ensures Sanitized("\t.", ['\0', '/']) == "\t"
    ensures Sanitized(Sanitized("\t.", ['\0', '/']), ['\0', '/']) == "Default"
  {
    var u := Underscored("\t.", Invalids(['\0', '/']));
    assert !IsWhiteSpace('.');
    assert u == "\t_";
    assert LeadCount(u, IsUnderscore) == 0;
    assert TrailCount(u, IsUnderscore) == 1;
  }
}
