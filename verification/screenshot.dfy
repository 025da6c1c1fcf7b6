/** Screenshot file names (screenshot.py generate_screenshot_filename): the step number
    padded to three digits, the action, an optional sanitised element identifier, and
    the `.png` extension. */
module Screenshot {
  import opened Wrappers
  import opened Strings

  /** The character kept in a file name: letters, digits and hyphens stay, anything
      else becomes a hyphen. */
  function SafeChar(c: char): (r: char)
    ensures IsAsciiAlnum(r) || r == '-'
    ensures r == c <==> IsAsciiAlnum(c) || c == '-'
  {
    if IsAsciiAlnum(c) || c == '-' then c else '-'
  }

  /** Every character of `s` made safe. */
  function Sanitise(s: string): (r: string)
    ensures |r| == |s|
    ensures forall i :: 0 <= i < |r| ==> r[i] == SafeChar(s[i])
  {
    if s == [] then [] else [SafeChar(s[0])] + Sanitise(s[1..])
  }

  /** The element identifier made safe for a file name, cut to 30 characters. */
  function SafeId(id: string): (r: string)
    ensures |r| == Min(30, |id|)
    ensures forall i :: 0 <= i < |r| ==> r[i] == SafeChar(id[i])
  {
    Take(Sanitise(id), 30)
  }

  const Extension: string := ".png"

  /** The file name of step `n`'s screenshot.  An empty identifier, like a missing
      one, adds nothing. */
  function ScreenshotFilename(n: int, action: string, elementId: Option<string>): (r: string)
    ensures elementId.None? || elementId.value == "" ==> r == Format03(n) + "_" + action + Extension
    ensures elementId.Some? && elementId.value != "" ==>
      r == Format03(n) + "_" + action + "_" + SafeId(elementId.value) + Extension
  {
    var stem := Format03(n) + "_" + action;
    if elementId.Some? && elementId.value != "" then stem + "_" + SafeId(elementId.value) + Extension
    else stem + Extension
  }

  /** The part of the name after the step number. */
  function Tail(action: string, elementId: Option<string>): string {
    if elementId.Some? && elementId.value != "" then "_" + action + "_" + SafeId(elementId.value) + Extension
    else "_" + action + Extension
  }

  lemma Regroup3(a: string, b: string, c: string, d: string)
    ensures a + b + c + d == a + (b + c + d)
  {
    assert a + b + c == a + (b + c);
    assert a + (b + c) + d == a + (b + c + d);
  }

  lemma Regroup4(a: string, b: string, c: string, d: string, e: string, f: string)
    ensures a + b + c + d + e + f == a + (b + c + d + e + f)
  {
    Regroup3(a, b, c, d);
    assert a + (b + c + d) + e == a + (b + c + d + e);
    assert a + (b + c + d + e) + f == a + (b + c + d + e + f);
  }

  lemma FilenameSplits(n: int, action: string, elementId: Option<string>)
    ensures ScreenshotFilename(n, action, elementId) == Format03(n) + Tail(action, elementId)
  {
    if elementId.Some? && elementId.value != "" {
      Regroup4(Format03(n), "_", action, "_", SafeId(elementId.value), Extension);
    } else {
      Regroup3(Format03(n), "_", action, Extension);
    }
  }

  /** Every name ends in `.png` and begins with the padded step number. */
  lemma FilenameShape(n: int, action: string, elementId: Option<string>)
    ensures var r := ScreenshotFilename(n, action, elementId);
      && |r| >= 4 + |Format03(n)|
      && r[|r| - 4..] == ".png"
      && StartsWith(r, Format03(n) + "_" + action)
  {
    var r := ScreenshotFilename(n, action, elementId);
    FilenameSplits(n, action, elementId);
    var t := Tail(action, elementId);
    assert r[|r| - 4..] == t[|t| - 4..];
    assert r[..|Format03(n) + "_" + action|] == Format03(n) + "_" + action;
  }

  predicate NoSeparator(s: string) {
    forall i :: 0 <= i < |s| ==> s[i] != '/' && s[i] != '\\'
  }

  lemma NoSeparatorConcat(a: string, b: string)
    requires NoSeparator(a) && NoSeparator(b)
    ensures NoSeparator(a + b)
  {
    forall i | 0 <= i < |a + b| ensures (a + b)[i] != '/' && (a + b)[i] != '\\' {
      if i >= |a| { assert (a + b)[i] == b[i - |a|]; }
    }
  }

  /** With an action free of path separators, the name stays inside the screenshot
      directory whatever the element identifier holds. */
  lemma FilenameHasNoSeparator(n: int, action: string, elementId: Option<string>)
    requires NoSeparator(action)
    ensures NoSeparator(ScreenshotFilename(n, action, elementId))
  {
    NumberNoSeparator(n);
    TailNoSeparator(action, elementId);
    FilenameSplits(n, action, elementId);
    NoSeparatorConcat(Format03(n), Tail(action, elementId));
  }

  lemma NumberNoSeparator(n: int)
    ensures NoSeparator(Format03(n))
  {
    var f := Format03(n);
    if n >= 0 {
      assert AllDigits(f);
    } else {
      assert AllDigits(f[1..]);
      forall i | 1 <= i < |f| ensures f[i] != '/' && f[i] != '\\' {
        assert f[i] == f[1..][i - 1];
      }
    }
  }

  lemma SafeIdNoSeparator(id: string)
    ensures NoSeparator(SafeId(id))
  {
    var s := SafeId(id);
    forall i | 0 <= i < |s| ensures s[i] != '/' && s[i] != '\\' {
      assert IsAsciiAlnum(s[i]) || s[i] == '-';
    }
  }

  lemma TailNoSeparator(action: string, elementId: Option<string>)
    requires NoSeparator(action)
    ensures NoSeparator(Tail(action, elementId))
  {
    NoSeparatorConcat("_", action);
    if elementId.Some? && elementId.value != "" {
      var s := SafeId(elementId.value);
      SafeIdNoSeparator(elementId.value);
      NoSeparatorConcat("_" + action, "_");
      NoSeparatorConcat("_" + action + "_", s);
      NoSeparatorConcat("_" + action + "_" + s, Extension);
    } else {
      NoSeparatorConcat("_" + action, Extension);
    }
  }

  /** Different step numbers never share a file, whatever the actions and identifiers:
      the characters before the first underscore are the padded number. */
  lemma FilenameInjective(n1: int, n2: int, a1: string, a2: string, id1: Option<string>, id2: Option<string>)
    requires ScreenshotFilename(n1, a1, id1) == ScreenshotFilename(n2, a2, id2)
    ensures n1 == n2
  {
    FilenameSplits(n1, a1, id1);
    FilenameSplits(n2, a2, id2);
    NumberNoUnderscore(n1);
    NumberNoUnderscore(n2);
    StemBeforeUnderscore(Format03(n1), Tail(a1, id1), Format03(n2), Tail(a2, id2));
    Format03Injective(n1, n2);
  }

  lemma NumberNoUnderscore(n: int)
    ensures forall i :: 0 <= i < |Format03(n)| ==> Format03(n)[i] != '_'
  {
    var f := Format03(n);
    if n >= 0 {
      assert AllDigits(f);
    } else {
      assert AllDigits(f[1..]);
      forall i | 1 <= i < |f| ensures f[i] != '_' {
        assert f[i] == f[1..][i - 1];
      }
    }
  }

  /** Two underscore-free stems, each followed by a text that starts with an
      underscore, are equal when the whole texts are. */
  lemma StemBeforeUnderscore(a: string, s: string, b: string, t: string)
    requires forall i :: 0 <= i < |a| ==> a[i] != '_'
    requires forall i :: 0 <= i < |b| ==> b[i] != '_'
    requires s != [] && s[0] == '_' && t != [] && t[0] == '_'
    requires a + s == b + t
    ensures a == b
  {
    if |a| < |b| {
      CharAfter(a, s);
      assert false;
    } else if |b| < |a| {
      CharAfter(b, t);
      assert false;
    } else {
      assert a == (a + s)[..|a|];
      assert b == (b + t)[..|b|];
    }
  }

  lemma CharAfter(a: string, s: string)
    requires s != []
    ensures (a + s)[|a|] == s[0]
  {
  }

  /** An identifier of slashes and dots becomes hyphens. */
  lemma TraversalIdSanitised()
    ensures ScreenshotFilename(7, "click", Some("../x")) == "007_click_---x.png"
  {
    assert Format03(7) == "007";
    var s := SafeId("../x");
    assert s == "---x" by {
      assert s[0] == '-' && s[1] == '-' && s[2] == '-' && s[3] == 'x';
    }
    Regroup4("007", "_", "click", "_", "---x", Extension);
  }
}
