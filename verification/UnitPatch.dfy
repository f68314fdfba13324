/** The patch of a recognized unit goes through exactly when its landmarks are unambiguous,
    and it changes nothing but the two places it means to change. */
module UnitPatch {
  import opened Contracts
  import opened UnitMigration
  import opened UnitRoundTrip

  lemma OccursWithin(a: string, b: string, pattern: string, k: nat)
    requires Occurs(a + b, pattern, k)
    ensures k + |pattern| <= |a| ==> Occurs(a, pattern, k)
    ensures k >= |a| ==> Occurs(b, pattern, k - |a|)
  {
    if k + |pattern| <= |a| {
      assert a[k..k + |pattern|] == (a + b)[k..k + |pattern|];
    } else if k >= |a| {
      assert b[k - |a|..k - |a| + |pattern|] == (a + b)[k..k + |pattern|];
    }
  }

  lemma OccursInLonger(a: string, b: string, pattern: string, k: nat)
    ensures Occurs(a, pattern, k) ==> Occurs(a + b, pattern, k)
    ensures Occurs(b, pattern, k) ==> Occurs(a + b, pattern, |a| + k)
  {
    if Occurs(a, pattern, k) { assert (a + b)[k..k + |pattern|] == a[k..k + |pattern|]; }
    if Occurs(b, pattern, k) { assert (a + b)[|a| + k..|a| + k + |pattern|] == b[k..k + |pattern|]; }
  }

  /** No occurrence of a one-line pattern spans a line end. */
  lemma StaysOnLine(s: string, pattern: string, k: nat, end: nat)
    requires Occurs(s, pattern, k) && '\n' !in pattern && end < |s| && s[end] == '\n'
    ensures k + |pattern| <= end || end < k
  {
    OccursAt(s, pattern, k);
  }

  lemma FoundBefore(x: string, y: string, z: string, pattern: string, j: nat, k: nat)
    requires pattern != "" && Occurs(x + z, pattern, j) && |x| <= j
    requires Occurs(x + y, pattern, k) && k + |pattern| <= |x|
    ensures Count(x + z, pattern) >= 2
  {
    OccursWithin(x, y, pattern, k);
    OccursInLonger(x, z, pattern, k);
    ApartCountTwice(x + z, pattern, k, j);
  }

  lemma FoundInLine(x: string, line: string, y: string, pattern: string, k: nat)
    requires Occurs(x + (line + y), pattern, k) && |x| <= k && k + |pattern| <= |x| + |line|
    ensures Find(line, pattern).Some?
  {
    OccursWithin(x, line + y, pattern, k);
    OccursWithin(line, y, pattern, k - |x|);
    FindReaches(line, pattern, k - |x|);
  }

  lemma OccursPast(x: string, y: string, z: string, pattern: string, k: nat)
    requires Occurs(x + (y + z), pattern, k) && |x| + |y| <= k
    ensures Occurs(x + z, pattern, k - |y|)
  {
    hide Occurs;
    OccursWithin(x, y + z, pattern, k);
    OccursWithin(y, z, pattern, k - |x|);
    OccursInLonger(x, z, pattern, k - |x| - |y|);
  }

  lemma FoundAfter(x: string, y: string, z: string, pattern: string, j: nat, k: nat)
    requires pattern != "" && '\n' !in pattern
    requires Occurs(x + z, pattern, j) && |x| <= j && (j == |x| || (x + z)[j - 1] == '\n')
    requires Occurs(x + (y + z), pattern, k) && |x| + |y| <= k < j + |y|
    ensures Count(x + z, pattern) >= 2
  {
    hide Count;
    OccursPast(x, y, z, pattern, k);
    StaysOnLine(x + z, pattern, k - |y|, j - 1);
    ApartCountTwice(x + z, pattern, k - |y|, j);
  }

  /** After inserting a line in which the pattern does not occur, an occurrence before the
      known one would have been there, apart from it, in the original text. */
  lemma EarlierIsSecond(x: string, line: string, z: string, pattern: string, j: nat, k: nat)
    requires pattern != "" && '\n' !in pattern && x != "" && x[|x| - 1] == '\n'
    requires Find(line, pattern).None?
    requires Occurs(x + z, pattern, j) && |x| <= j && (j == |x| || (x + z)[j - 1] == '\n')
    requires Occurs(x + (line + (NEWLINE + z)), pattern, k) && k < j + |line| + 1
    ensures Count(x + z, pattern) >= 2
  {
    hide Occurs, Count, Find;
    var all := x + (line + (NEWLINE + z));
    assert all[|x| - 1] == '\n' && all[|x| + |line|] == '\n';
    StaysOnLine(all, pattern, k, |x| - 1);
    StaysOnLine(all, pattern, k, |x| + |line|);
    if k + |pattern| <= |x| {
      FoundBefore(x, line + (NEWLINE + z), z, pattern, j, k);
    } else if k + |pattern| <= |x| + |line| {
      FoundInLine(x, line, NEWLINE + z, pattern, k);
    } else {
      assert line + (NEWLINE + z) == line + NEWLINE + z;
      FoundAfter(x, line + NEWLINE, z, pattern, j, k);
    }
  }

  /** A unit up to and with its environment line. */
  function Upto(t: Template, u: Unit): string {
    Head(t, u.user) + Groups(t, u.user) + Anchor(t)
  }

  /** From the preflight line on. */
  function After(t: Template, u: Unit): string {
    t.preflight + NEWLINE + (ExecStart(t, u.executable) + Ending(t, u))
  }

  function Ending(t: Template, u: Unit): string {
    (if u.runtime then t.manifestArgument else "") + NEWLINE + t.suffix
  }

  lemma Regroup6(a: string, b: string, c: string, d: string)
    ensures a + b + c + d == a + (b + (c + d))
  {
  }

  lemma PlainText(t: Template, u: Unit)
    requires !u.bridge
    ensures Print(t, u) == Upto(t, u) + After(t, u)
  {
    hide Print, Head, Groups, Anchor, ExecStart;
    var m := t.preflight + NEWLINE;
    assert "" + t.preflight + NEWLINE == m;
    PrintedAs(t, u, m, Ending(t, u));
    Regroup6(Upto(t, u), m, ExecStart(t, u.executable), Ending(t, u));
  }

  lemma BridgedText(t: Template, u: Unit)
    requires u.bridge
    ensures Print(t, u) == Upto(t, u) + (t.driver + (NEWLINE + After(t, u)))
  {
    hide Print, Head, Groups, Anchor, ExecStart, Ending;
    var p, m := t.preflight + NEWLINE, t.driver + NEWLINE + t.preflight + NEWLINE;
    EndingIs(t, u);
    PrintedAs(t, u, m, Ending(t, u));
    assert m == t.driver + (NEWLINE + p);
    Regroup6(Upto(t, u), m, ExecStart(t, u.executable), Ending(t, u));
    Regroup6(t.driver, NEWLINE, p, ExecStart(t, u.executable) + Ending(t, u));
    assert m + (ExecStart(t, u.executable) + Ending(t, u)) == t.driver + NEWLINE + p + (ExecStart(t, u.executable) + Ending(t, u));
  }

  lemma EndingIs(t: Template, u: Unit)
    ensures Ending(t, u) == (if u.runtime then t.manifestArgument else "") + NEWLINE + t.suffix
  {
  }

  lemma ReplacedAt(a: string, pattern: string, b: string, replacement: string)
    requires Find(a + pattern + b, pattern) == Some(|a|)
    ensures ReplaceFirst(a + pattern + b, pattern, replacement) == a + replacement + b
  {
    var s := a + pattern + b;
    assert s[..|a|] == a && s[|a| + |pattern|..] == b;
  }

  lemma LineInserted(a: string, anchor: string, z: string, line: string)
    requires Find(a + anchor + z, anchor) == Some(|a|)
    ensures ReplaceFirst(a + anchor + z, anchor, anchor + line + NEWLINE) == a + anchor + (line + (NEWLINE + z))
  {
    hide Find, ReplaceFirst;
    ReplacedAt(a, anchor, z, anchor + line + NEWLINE);
    assert a + (anchor + line + NEWLINE) + z == a + anchor + (line + (NEWLINE + z));
  }

  lemma AnchorStands(t: Template, u: Unit)
    requires t.Valid() && !u.bridge && Count(Print(t, u), Anchor(t)) == 1
    ensures var a := Head(t, u.user) + Groups(t, u.user);
            Print(t, u) == a + Anchor(t) + After(t, u) && Find(a + Anchor(t) + After(t, u), Anchor(t)) == Some(|a|)
  {
    hide Head, Groups, Anchor, After, Print, Count, Occurs, Find;
    var a := Head(t, u.user) + Groups(t, u.user);
    PlainText(t, u);
    OccursBetween(a, Anchor(t), After(t, u));
    AnchorFound(t, Print(t, u), |a|);
  }

  /** The first replacement adds the driver line, and nothing else. */
  lemma AnchorReplaced(t: Template, u: Unit)
    requires t.Valid() && !u.bridge && Count(Print(t, u), Anchor(t)) == 1
    ensures ReplaceFirst(Print(t, u), Anchor(t), Anchor(t) + t.driver + NEWLINE) == Print(t, u.(bridge := true))
  {
    AnchorStands(t, u);
    BridgedText(t, u.(bridge := true));
    SameAfter(t, u);
    hide Head, Groups, Anchor, After, Print, Count, Occurs, Find, ReplaceFirst;
    LineInserted(Head(t, u.user) + Groups(t, u.user), Anchor(t), After(t, u), t.driver);
  }

  lemma SameAfter(t: Template, u: Unit)
    ensures After(t, u.(bridge := true)) == After(t, u) && Upto(t, u.(bridge := true)) == Upto(t, u)
  {
  }

  lemma ExecStartIsOneLine(t: Template, executable: string, before: seq<string>, after: seq<string>)
    requires Canonical(t, before, after) && NoSpace(executable)
    ensures '\n' !in ExecStart(t, executable) && Find(t.driver, ExecStart(t, executable)).None?
  {
    hide StartsOnly, Foreign, AllOneLine, Unlines, Find;
    var exec, d := ExecStart(t, executable), t.driver;
    assert exec == "ExecStart=" + (executable + t.configArgument);
    FindIsFirst(d, exec);
    if Find(d, exec).Some? {
      var k := Find(d, exec).value;
      assert d[k..k + |exec|][..10] == d[k..k + 10] == "ExecStart=";
      FindReaches(d, "ExecStart=", k);
    }
  }

  /** A smoke unit before and after the patch, around its start line. */
  lemma SmokeParts(t: Template, u: Unit)
    requires !u.bridge && !u.runtime
    ensures var v, p, tail := u.(bridge := true), t.preflight + NEWLINE, NEWLINE + t.suffix;
            var exec, x := ExecStart(t, u.executable), Upto(t, u);
            && Print(t, u) == x + (p + (exec + tail))
            && Print(t, v) == x + (t.driver + (NEWLINE + (p + (exec + tail))))
            && Print(t, v.(runtime := true)) == x + (t.driver + (NEWLINE + (p + (exec + (t.manifestArgument + tail)))))
            && x != "" && x[|x| - 1] == '\n' && exec != ""
  {
    var v, p, tail := u.(bridge := true), t.preflight + NEWLINE, NEWLINE + t.suffix;
    PlainText(t, u);
    BridgedText(t, v);
    BridgedText(t, v.(runtime := true));
    hide Print, Head, Groups;
    assert "" + NEWLINE + t.suffix == tail;
    assert t.manifestArgument + NEWLINE + t.suffix == t.manifestArgument + tail;
  }

  lemma StartLineReplaced(x: string, driver: string, p: string, exec: string, more: string, tail: string)
    requires exec != "" && '\n' !in exec && x != "" && x[|x| - 1] == '\n' && p != "" && p[|p| - 1] == '\n'
    requires Find(driver, exec).None? && Count(x + (p + (exec + tail)), exec) == 1
    ensures ReplaceFirst(x + (driver + (NEWLINE + (p + (exec + tail)))), exec, exec + more)
            == x + (driver + (NEWLINE + (p + (exec + (more + tail)))))
  {
    hide Count, Find, ReplaceFirst;
    var left := x + (driver + (NEWLINE + p));
    StartFound(x, driver, p, exec, tail);
    ReplacedText(x, driver, p, exec, more, tail);
    ReplacedAt(left, exec, tail, exec + more);
  }

  /** The second replacement adds the manifest argument to the start line, and nothing else. */
  lemma StartReplaced(t: Template, u: Unit, before: seq<string>, after: seq<string>)
    requires Canonical(t, before, after) && NoSpace(u.executable) && !u.bridge && !u.runtime
    requires Count(Print(t, u), ExecStart(t, u.executable)) == 1
    ensures var exec := ExecStart(t, u.executable);
            ReplaceFirst(Print(t, u.(bridge := true)), exec, exec + t.manifestArgument)
            == Print(t, u.(bridge := true, runtime := true))
  {
    hide Canonical, Upto, ExecStart, Print, Count, Find, ReplaceFirst;
    SmokeParts(t, u);
    ExecStartIsOneLine(t, u.executable, before, after);
    StartLineReplaced(Upto(t, u), t.driver, t.preflight + NEWLINE, ExecStart(t, u.executable),
                      t.manifestArgument, NEWLINE + t.suffix);
  }

  lemma ReplacedText(x: string, driver: string, p: string, exec: string, more: string, tail: string)
    ensures x + (driver + (NEWLINE + p)) + (exec + more) + tail == x + (driver + (NEWLINE + (p + (exec + (more + tail)))))
    ensures x + (driver + (NEWLINE + p)) + exec + tail == x + (driver + (NEWLINE + (p + (exec + tail))))
  {
    Regroup6(NEWLINE, p, exec, more + tail);
    Regroup6(NEWLINE, p, exec, tail);
  }

  /** The start line counted once is the first occurrence after the driver line is added too. */
  lemma StartFound(x: string, driver: string, p: string, exec: string, tail: string)
    requires exec != "" && '\n' !in exec && x != "" && x[|x| - 1] == '\n' && p != "" && p[|p| - 1] == '\n'
    requires Find(driver, exec).None? && Count(x + (p + (exec + tail)), exec) == 1
    ensures var left := x + (driver + (NEWLINE + p)); Find(left + exec + tail, exec) == Some(|left|)
  {
    hide Count, Find;
    var left, z := x + (driver + (NEWLINE + p)), p + (exec + tail);
    var all := x + (driver + (NEWLINE + z));
    var j := |x| + |p|;
    ReplacedText(x, driver, p, exec, "", tail);
    assert left + exec + tail == all;
    OccursBetween(left, exec, tail);
    assert x + z == x + p + exec + tail;
    OccursBetween(x + p, exec, tail);
    FindReaches(all, exec, |left|);
    FindIsFirst(all, exec);
    var k := Find(all, exec).value;
    if k < |left| { EarlierIsSecond(x, driver, z, exec, j, k); }
  }

  lemma CanonicalIsValid(t: Template, before: seq<string>, after: seq<string>)
    requires Canonical(t, before, after)
    ensures t.Valid()
  {
    hide StartsOnly, Foreign, AllOneLine, Unlines, Find;
  }

  /** The text the patch computes for a recognized unit that is not bridged yet. */
  function Patched(t: Template, text: string, u: Unit): string {
    var bridged := ReplaceFirst(text, Anchor(t), Anchor(t) + t.driver + NEWLINE);
    if u.runtime then bridged
    else ReplaceFirst(bridged, ExecStart(t, u.executable), ExecStart(t, u.executable) + t.manifestArgument)
  }

  lemma PatchedIsPrint(t: Template, u: Unit, before: seq<string>, after: seq<string>)
    requires Canonical(t, before, after) && NoSpace(u.executable) && !u.bridge
    requires Count(Print(t, u), Anchor(t)) == 1
    requires u.runtime || Count(Print(t, u), ExecStart(t, u.executable)) == 1
    ensures Patched(t, Print(t, u), u) == Print(t, u.(runtime := true, bridge := true))
  {
    hide Canonical, Print, Count, ReplaceFirst, Anchor, ExecStart;
    CanonicalIsValid(t, before, after);
    AnchorReplaced(t, u);
    if !u.runtime { StartReplaced(t, u, before, after); }
  }

  /** The patch of a recognized unit goes through exactly when it has nothing to do, or the
      environment line is unambiguous and, for a smoke unit, so is the start line. */
  lemma RendersExactly(t: Template, text: string, before: seq<string>, after: seq<string>)
    requires Canonical(t, before, after) && Parse(t, text).Some?
    ensures var u := Parse(t, text).value;
            Render(t, text).Some? <==>
              (u.runtime && u.bridge)
              || (Count(text, Anchor(t)) == 1 && (u.runtime || Count(text, ExecStart(t, u.executable)) == 1))
  {
    hide Parse, Print, Canonical, Good, Count, ReplaceFirst, NoSpace, OneLine;
    var u := Parse(t, text).value;
    ParsedIsGood(t, text);
    ParsedIsPrinted(t, text);
    GoodRuntime(u);
    if !u.bridge && Count(text, Anchor(t)) == 1 && (u.runtime || Count(text, ExecStart(t, u.executable)) == 1) {
      PatchedIsPrint(t, u, before, after);
      ParsePrinted(t, u.(runtime := true, bridge := true), before, after);
    }
  }

  lemma GoodRuntime(u: Unit)
    requires Good(u)
    ensures Good(u.(runtime := true, bridge := true)) && (u.bridge ==> u.runtime) && NoSpace(u.executable)
  {
  }
}
