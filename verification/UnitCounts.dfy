/** How often the landmarks of the patch occur in an installed unit, line by line. */
module UnitCounts {
  import opened Contracts
  import opened UnitMigration
  import opened UnitRoundTrip
  import opened UnitPatch
  import opened UnitTemplate

  predicate EndsWith(s: string, e: string) {
    |e| <= |s| && s[|s| - |e|..] == e
  }

  // --------------------------------------------------------------- counting by lines

  lemma FoundAt(s: string, p: string, k: nat)
    requires Occurs(s, p, k) && forall i: nat :: i < k ==> !Occurs(s, p, i)
    ensures Find(s, p) == Some(k)
  {
    FindReaches(s, p, k);
    FindIsFirst(s, p);
  }

  /** What comes before every occurrence does not count. */
  lemma CountPast(x: string, rest: string, p: string)
    requires p != "" && forall i: nat :: i < |x| ==> !Occurs(x + rest, p, i)
    ensures Count(x + rest, p) == Count(rest, p)
  {
    FindPast(x, rest, p);
    if Find(rest, p).Some? {
      var j := Find(rest, p).value;
      FindIsFirst(rest, p);
      assert (x + rest)[|x| + j + |p|..] == rest[j + |p|..];
    }
  }

  lemma FindPast(x: string, rest: string, p: string)
    requires p != "" && forall i: nat :: i < |x| ==> !Occurs(x + rest, p, i)
    ensures Find(rest, p).None? ==> Find(x + rest, p).None?
    ensures Find(rest, p).Some? ==> Find(x + rest, p) == Some(|x| + Find(rest, p).value)
  {
    hide Find, Occurs;
    var s := x + rest;
    FindIsFirst(s, p);
    FindIsFirst(rest, p);
    if Find(s, p).Some? {
      OccursWithin(x, rest, p, Find(s, p).value);
      FindReaches(rest, p, Find(s, p).value - |x|);
    }
    if Find(rest, p).Some? {
      OccursInLonger(x, rest, p, Find(rest, p).value);
      FindReaches(s, p, |x| + Find(rest, p).value);
    }
  }

  lemma CountAt(x: string, rest: string, p: string)
    requires p != "" && forall i: nat :: i < |x| ==> !Occurs(x + p + rest, p, i)
    ensures Count(x + p + rest, p) == 1 + Count(rest, p)
  {
    OccursBetween(x, p, rest);
    FoundAt(x + p + rest, p, |x|);
    assert (x + p + rest)[|x| + |p|..] == rest;
  }

  lemma NothingBefore(line: string, rest: string, p: string, end: nat)
    requires p != "" && '\n' !in p && end <= |line| && (forall i: nat :: i < end ==> !Occurs(line, p, i))
    ensures forall i: nat :: i < end ==> !Occurs(line + NEWLINE + rest, p, i)
  {
    var s := line + NEWLINE + rest;
    forall i: nat | i < end && Occurs(s, p, i) ensures false {
      StaysOnLine(s, p, i, |line|);
      assert s == line + (NEWLINE + rest);
      OccursWithin(line, NEWLINE + rest, p, i);
    }
  }

  /** Occurrences of a one-line pattern are counted line by line. */
  lemma {:induction false} CountLine(line: string, rest: string, p: string)
    requires p != "" && '\n' !in p
    ensures Count(line + NEWLINE + rest, p) == Count(line, p) + Count(rest, p)
    decreases |line|
  {
    hide Count, Find, Occurs;
    var s := line + NEWLINE + rest;
    if Find(line, p).Some? {
      CountSplits(line, rest, p);
      var k := Find(line, p).value;
      FindIsFirst(line, p);
      CountLine(line[k + |p|..], rest, p);
    } else {
      CountSkips(line, rest, p);
    }
  }

  lemma FirstInLine(line: string, p: string) returns (k: nat)
    requires p != "" && Find(line, p).Some?
    ensures Find(line, p) == Some(k) && Occurs(line, p, k) && (forall i: nat :: i < k ==> !Occurs(line, p, i))
    ensures line == line[..k] + p + line[k + |p|..]
  {
    FindIsFirst(line, p);
    k := Find(line, p).value;
    forall i: nat | i < k && Occurs(line, p, i) ensures false { FindReaches(line, p, i); }
  }

  lemma CountSplits(line: string, rest: string, p: string)
    requires p != "" && '\n' !in p && Find(line, p).Some?
    ensures var k := Find(line, p).value;
            && k + |p| <= |line|
            && Count(line, p) == 1 + Count(line[k + |p|..], p)
            && Count(line + NEWLINE + rest, p) == 1 + Count(line[k + |p|..] + NEWLINE + rest, p)
  {
    var k := FirstInLine(line, p);
    NothingBefore(line, rest, p, k);
    hide Count, Find, Occurs;
    var a, b := line[..k], line[k + |p|..];
    assert line + NEWLINE + rest == a + p + (b + NEWLINE + rest);
    CountAt(a, b, p);
    CountAt(a, b + NEWLINE + rest, p);
  }

  lemma CountSkips(line: string, rest: string, p: string)
    requires p != "" && '\n' !in p && Find(line, p).None?
    ensures Count(line, p) == 0 && Count(line + NEWLINE + rest, p) == Count(rest, p)
  {
    var x := line + NEWLINE;
    forall i: nat | i < |line| && Occurs(line, p, i) ensures false { FindReaches(line, p, i); }
    NothingBefore(line, rest, p, |line|);
    forall i: nat | i < |x| && Occurs(x + rest, p, i) ensures false {
      StaysOnLine(x + rest, p, i, |line|);
    }
    CountPast(x, rest, p);
  }

  /** Occurrences of a whole line are counted by the lines that end with it. */
  lemma CountEnding(line: string, rest: string, e: string)
    requires OneLine(line) && '\n' !in e
    ensures Count(line + NEWLINE + rest, e + NEWLINE) == (if EndsWith(line, e) then 1 else 0) + Count(rest, e + NEWLINE)
  {
    var p, s, at := e + NEWLINE, line + NEWLINE + rest, |line| - |e|;
    forall i: nat | i <= |line| && Occurs(s, p, i) ensures i == at && EndsWith(line, e) {
      OccursAt(s, p, i);
      assert p[|e|] == '\n';
      assert s[|line|] == '\n';
      assert forall j :: 0 <= j < |line| ==> s[j] == line[j] && line[j] in line;
      assert forall j :: 0 <= j < |e| ==> p[j] == e[j] && e[j] in e;
      assert line[at..] == e;
    }
    if EndsWith(line, e) {
      assert s == line[..at] + p + rest;
      CountAt(line[..at], rest, p);
    } else {
      assert s == (line + NEWLINE) + rest;
      CountPast(line + NEWLINE, rest, p);
    }
  }

  function Total(lines: seq<string>, p: string): nat
    requires p != ""
  {
    if lines == [] then 0 else Count(lines[0], p) + Total(lines[1..], p)
  }

  function Ends(lines: seq<string>, e: string): nat {
    if lines == [] then 0 else (if EndsWith(lines[0], e) then 1 else 0) + Ends(lines[1..], e)
  }

  lemma {:induction false} CountUnlines(lines: seq<string>, p: string)
    requires p != "" && '\n' !in p
    ensures Count(Unlines(lines), p) == Total(lines, p)
  {
    if lines != [] {
      CountUnlines(lines[1..], p);
      hide Count;
      CountLine(lines[0], Unlines(lines[1..]), p);
    }
  }

  lemma {:induction false} CountLinesEnding(lines: seq<string>, e: string)
    requires AllOneLine(lines) && '\n' !in e
    ensures Count(Unlines(lines), e + NEWLINE) == Ends(lines, e)
  {
    if lines != [] {
      CountLinesEnding(lines[1..], e);
      hide Count, OneLine;
      CountEnding(lines[0], Unlines(lines[1..]), e);
    }
  }

  lemma {:induction false} TotalConcat(a: seq<string>, b: seq<string>, p: string)
    requires p != ""
    ensures Total(a + b, p) == Total(a, p) + Total(b, p)
  {
    if a == [] {
      assert a + b == b;
    } else {
      assert (a + b)[1..] == a[1..] + b;
      TotalConcat(a[1..], b, p);
    }
  }

  lemma {:induction false} EndsConcat(a: seq<string>, b: seq<string>, e: string)
    ensures Ends(a + b, e) == Ends(a, e) + Ends(b, e)
  {
    if a == [] {
      assert a + b == b;
    } else {
      assert (a + b)[1..] == a[1..] + b;
      EndsConcat(a[1..], b, e);
    }
  }

  // ------------------------------------------------------------------ installed units

  lemma QuietCounts(line: string, p: string)
    requires 'x' !in line && |p| > 1 && p[1] == 'x'
    ensures Count(line, p) == 0
  {
    forall i: nat ensures !Occurs(line, p, i) {
      if Occurs(line, p, i) { OccursAt(line, p, i); }
    }
    FindIsFirst(line, p);
  }

  lemma {:induction false} OthersCountNothing(lines: seq<string>, p: string)
    requires AllOther(lines) && |p| > 1 && p[1] == 'x'
    ensures Total(lines, p) == 0
  {
    if lines != [] {
      assert Other(lines[0]);
      QuietCounts(lines[0], p);
      OthersCountNothing(lines[1..], p);
    }
  }

  lemma EndingChars(s: string, e: string)
    ensures EndsWith(s, e) ==> forall i :: 0 <= i < |e| ==> s[|s| - |e| + i] == e[i]
  {
    if EndsWith(s, e) {
      forall i | 0 <= i < |e| ensures s[|s| - |e| + i] == e[i] { assert s[|s| - |e|..][i] == e[i]; }
    }
  }

  lemma NotEnding(line: string, e: string)
    requires e != "" && e[|e| - 1] == 'v' && (line != "" ==> line[|line| - 1] != 'v')
    ensures !EndsWith(line, e)
  {
    EndingChars(line, e);
  }

  lemma {:induction false} OthersEndNothing(lines: seq<string>, e: string)
    requires AllOther(lines) && e != "" && e[|e| - 1] == 'v'
    ensures Ends(lines, e) == 0
  {
    if lines != [] {
      assert Other(lines[0]);
      NotEnding(lines[0], e);
      OthersEndNothing(lines[1..], e);
    }
  }

  lemma NameEnds(name: string, x: string, e: string)
    requires e != "" && e[0] !in name
    ensures EndsWith(name + x, e) <==> EndsWith(x, e)
  {
    var s := name + x;
    if |e| <= |x| {
      assert s[|s| - |e|..] == x[|x| - |e|..];
    } else {
      EndingChars(s, e);
      assert forall i :: 0 <= i < |name| ==> s[i] == name[i] && name[i] in name;
    }
  }

  lemma NameCounts(name: string, x: string, p: string)
    requires p != "" && p[0] !in name
    ensures Count(name + x, p) == Count(x, p)
  {
    forall i: nat | i < |name| ensures !Occurs(name + x, p, i) {
      assert name[i] in name;
      if Occurs(name + x, p, i) { OccursAt(name + x, p, i); }
    }
    CountPast(name, x, p);
  }

  lemma Names()
    ensures 'E' !in "User=" && 'E' !in "Group="
  {
  }

  lemma FixedEndings()
    ensures !EndsWith(SUPPLEMENTARY, ENVIRONMENT) && !EndsWith(DRIVER, ENVIRONMENT) && !EndsWith(PREFLIGHT, ENVIRONMENT)
  {
    hide EndsWith;
    NotEnding(SUPPLEMENTARY, ENVIRONMENT);
    NotEnding(DRIVER, ENVIRONMENT);
    NotEnding(PREFLIGHT, ENVIRONMENT);
  }

  lemma LastOf(a: string, b: string)
    requires b != ""
    ensures (a + b)[|a + b| - 1] == b[|b| - 1]
  {
  }

  lemma ArgumentsEnd()
    ensures CONFIG_ARGUMENT != "" && CONFIG_ARGUMENT[|CONFIG_ARGUMENT| - 1] != 'v'
    ensures MANIFEST_ARGUMENT != "" && MANIFEST_ARGUMENT[|MANIFEST_ARGUMENT| - 1] != 'v'
  {
  }

  lemma ExecLineEnding(u: Unit)
    ensures !EndsWith(ExecLine(CANONICAL, u), ENVIRONMENT)
  {
    hide EndsWith, CONFIG_ARGUMENT, MANIFEST_ARGUMENT, SUPPLEMENTARY, ENVIRONMENT, DRIVER, PREFLIGHT, BEFORE, AFTER, Unlines;
    ArgumentsEnd();
    EnvironmentBegins();
    var start := ExecStart(CANONICAL, u.executable);
    LastOf("ExecStart=" + u.executable, CONFIG_ARGUMENT);
    if u.runtime { LastOf(start, MANIFEST_ARGUMENT); } else { assert start + "" == start; }
    NotEnding(ExecLine(CANONICAL, u), ENVIRONMENT);
  }

  lemma BodyEndings(u: Unit)
    ensures Ends(Body(CANONICAL, u), ENVIRONMENT) == if EndsWith(u.user, ENVIRONMENT) then 3 else 1
  {
    hide SUPPLEMENTARY, ENVIRONMENT, DRIVER, PREFLIGHT, CONFIG_ARGUMENT, MANIFEST_ARGUMENT, BEFORE, AFTER, Unlines;
    hide EndsWith, ExecLine, Ends;
    EnvironmentBegins();
    Names();
    NameEnds("User=", u.user, ENVIRONMENT);
    NameEnds("Group=", u.user, ENVIRONMENT);
    FixedEndings();
    ExecLineEnding(u);
    EndsSelf(ENVIRONMENT);
    EndsFour(Body(CANONICAL, u), ENVIRONMENT);
  }

  lemma EnvironmentBegins()
    ensures ENVIRONMENT != "" && ENVIRONMENT[0] == 'E' && ENVIRONMENT[|ENVIRONMENT| - 1] == 'v' && OneLine(ENVIRONMENT)
  {
    EnvironmentLine();
    hide OneLine;
  }

  lemma EndsSelf(e: string)
    ensures EndsWith(e, e)
  {
  }

  lemma EndsFour(lines: seq<string>, e: string)
    requires |lines| >= 4 && forall i :: 4 <= i < |lines| ==> !EndsWith(lines[i], e)
    ensures Ends(lines, e) == (if EndsWith(lines[0], e) then 1 else 0) + (if EndsWith(lines[1], e) then 1 else 0)
                              + (if EndsWith(lines[2], e) then 1 else 0) + (if EndsWith(lines[3], e) then 1 else 0)
  {
    hide EndsWith;
    EndsNone(lines[4..], e);
    EndsNext(lines, 3, e);
    EndsNext(lines, 2, e);
    EndsNext(lines, 1, e);
    EndsNext(lines, 0, e);
    assert lines[0..] == lines;
  }

  lemma EndsNext(lines: seq<string>, i: nat, e: string)
    requires i < |lines|
    ensures Ends(lines[i..], e) == (if EndsWith(lines[i], e) then 1 else 0) + Ends(lines[i + 1..], e)
  {
    assert lines[i..][1..] == lines[i + 1..];
  }

  lemma {:induction false} EndsNone(lines: seq<string>, e: string)
    requires forall i :: 0 <= i < |lines| ==> !EndsWith(lines[i], e)
    ensures Ends(lines, e) == 0
  {
    hide EndsWith;
    if lines != [] { EndsNone(lines[1..], e); }
  }

  /** The environment line of an installed unit occurs once, and twice more in a unit whose
      user ends with it. */
  lemma InstalledAnchors(u: Unit)
    requires Good(u)
    ensures Count(Print(CANONICAL, u), Anchor(CANONICAL)) == if EndsWith(u.user, ENVIRONMENT) then 3 else 1
  {
    hide CANONICAL, Canonical, Print, Body, Count, Ends, EndsWith, OneLine, AllOneLine, AllOther, Unlines, BEFORE, AFTER, ENVIRONMENT, Good;
    InstalledTemplate();
    var lines := BEFORE + Body(CANONICAL, u) + AFTER;
    PrintIsUnlines(CANONICAL, u, BEFORE, AFTER);
    BodyOneLine(CANONICAL, u, BEFORE, AFTER);
    AllOneLines(CANONICAL, u, BEFORE, AFTER);
    EnvironmentBegins();
    AnchorIs();
    OneLineHasNoNewline(ENVIRONMENT);
    CountLinesEnding(lines, ENVIRONMENT);
    FixedParts();
    OthersEndNothing(BEFORE, ENVIRONMENT);
    OthersEndNothing(AFTER, ENVIRONMENT);
    EndsConcat(BEFORE + Body(CANONICAL, u), AFTER, ENVIRONMENT);
    EndsConcat(BEFORE, Body(CANONICAL, u), ENVIRONMENT);
    BodyEndings(u);
  }

  lemma AnchorIs()
    ensures Anchor(CANONICAL) == ENVIRONMENT + NEWLINE
  {
    hide ENVIRONMENT;
  }

  lemma OneLineHasNoNewline(s: string)
    requires OneLine(s)
    ensures '\n' !in s
  {
  }

  lemma NoX()
    ensures 'x' !in SUPPLEMENTARY && 'x' !in ENVIRONMENT
  {
    assert 'x' !in "SupplementaryGroups=" && 'x' !in "astrumweaver-config";
    assert 'x' !in "EnvironmentFile=" && 'x' !in "-/etc/astrumweaver/worker.env";
  }

  lemma StartText(executable: string)
    requires NoSpace(executable)
    ensures var p := ExecStart(CANONICAL, executable);
            |p| >= 10 && p[0] == 'E' && p[1] == 'x' && p[9] == '=' && '\n' !in p
  {
    hide BEFORE, AFTER, SUPPLEMENTARY, ENVIRONMENT, DRIVER, PREFLIGHT, CONFIG_ARGUMENT, MANIFEST_ARGUMENT, Unlines;
    hide Canonical, Find;
    InstalledTemplate();
    ExecStartIsOneLine(CANONICAL, executable, BEFORE, AFTER);
    var p := ExecStart(CANONICAL, executable);
    assert p == "ExecStart=" + (executable + CONFIG_ARGUMENT);
    assert forall i :: 0 <= i < 10 ==> p[i] == "ExecStart="[i];
  }

  /** The preflight line starts like a start line, but never is one. */
  lemma PreflightCounts(p: string)
    requires |p| >= 10 && p[0] == 'E' && p[9] == '='
    ensures Count(PREFLIGHT, p) == 0
  {
    PreflightPlain();
    forall i: nat ensures !Occurs(PREFLIGHT, p, i) {
      if Occurs(PREFLIGHT, p, i) { OccursAt(PREFLIGHT, p, i); }
    }
    FindIsFirst(PREFLIGHT, p);
  }

  lemma PreflightPlain()
    ensures |PREFLIGHT| > 9 && PREFLIGHT[9] != '=' && forall i :: 1 <= i < |PREFLIGHT| ==> PREFLIGHT[i] != 'E'
  {
    var x := "+/usr/local/libexec/" + "astrumweaver/gpu-preflight " + "/etc/astrumweaver/gpu-uuids";
    assert NoCapitalE("+/usr/local/libexec/") && NoCapitalE("astrumweaver/gpu-preflight ") && NoCapitalE("/etc/astrumweaver/gpu-uuids");
    PlainConcat("+/usr/local/libexec/", "astrumweaver/gpu-preflight ", "/etc/astrumweaver/gpu-uuids");
    forall i | 1 <= i < |PREFLIGHT| ensures PREFLIGHT[i] != 'E' {
      if i < 13 { assert PREFLIGHT[i] == "ExecStartPre="[i]; } else { assert PREFLIGHT[i] == x[i - 13]; }
    }
    assert PREFLIGHT[9] == "ExecStartPre="[9];
  }

  lemma CountsSelf(p: string)
    requires p != ""
    ensures Count(p, p) == 1
  {
    assert p == "" + p + "";
    CountAt("", "", p);
    FindIsFirst("", p);
  }

  lemma TotalNext(lines: seq<string>, i: nat, p: string)
    requires i < |lines| && p != ""
    ensures Total(lines[i..], p) == Count(lines[i], p) + Total(lines[i + 1..], p)
  {
    hide Count;
    assert lines[i..][1..] == lines[i + 1..];
  }

  lemma TotalSix(lines: seq<string>, p: string)
    requires |lines| == 6 && p != ""
    ensures Total(lines, p) == Count(lines[0], p) + Count(lines[1], p) + Count(lines[2], p)
                               + Count(lines[3], p) + Count(lines[4], p) + Count(lines[5], p)
  {
    hide Count;
    assert lines[0..] == lines && lines[6..] == [];
    TotalNext(lines, 5, p);
    TotalNext(lines, 4, p);
    TotalNext(lines, 3, p);
    TotalNext(lines, 2, p);
    TotalNext(lines, 1, p);
    TotalNext(lines, 0, p);
  }

  lemma BodyStartLines(u: Unit)
    requires NoSpace(u.executable) && !u.runtime && !u.bridge
    ensures var p := ExecStart(CANONICAL, u.executable);
            p != "" && Total(Body(CANONICAL, u), p) == 1 + 2 * Count(u.user, p)
  {
    hide SUPPLEMENTARY, ENVIRONMENT, DRIVER, PREFLIGHT, CONFIG_ARGUMENT, MANIFEST_ARGUMENT, BEFORE, AFTER, Unlines;
    hide Count, Total, ExecStart, NoSpace;
    var p := ExecStart(CANONICAL, u.executable);
    StartText(u.executable);
    Names();
    NameCounts("User=", u.user, p);
    NameCounts("Group=", u.user, p);
    NoX();
    QuietCounts(SUPPLEMENTARY, p);
    QuietCounts(ENVIRONMENT, p);
    PreflightCounts(p);
    assert ExecLine(CANONICAL, u) == p + "" == p;
    CountsSelf(p);
    TotalSix(Body(CANONICAL, u), p);
  }

  /** The start line of an installed smoke unit occurs once, and twice more for every time
      its user contains it. */
  lemma InstalledStarts(u: Unit)
    requires Good(u) && !u.runtime
    ensures var p := ExecStart(CANONICAL, u.executable);
            p != "" && Count(Print(CANONICAL, u), p) == 1 + 2 * Count(u.user, p)
  {
    hide CANONICAL, Canonical, Print, Body, Count, Total, OneLine, AllOneLine, AllOther, Unlines, BEFORE, AFTER, ExecStart;
    InstalledTemplate();
    GoodRuntime(u);
    StartText(u.executable);
    var lines, p := BEFORE + Body(CANONICAL, u) + AFTER, ExecStart(CANONICAL, u.executable);
    PrintIsUnlines(CANONICAL, u, BEFORE, AFTER);
    CountUnlines(lines, p);
    FixedParts();
    OthersCountNothing(BEFORE, p);
    OthersCountNothing(AFTER, p);
    TotalConcat(BEFORE + Body(CANONICAL, u), AFTER, p);
    TotalConcat(BEFORE, Body(CANONICAL, u), p);
    BodyStartLines(u);
  }

  /** An installed unit that is not bridged yet is patched exactly when its user neither ends
      with the environment line nor, in a smoke unit, contains the start line. */
  lemma InstalledUnitsPatch(u: Unit)
    requires Good(u) && !u.bridge
    ensures Render(CANONICAL, Print(CANONICAL, u)).Some? <==>
              !EndsWith(u.user, ENVIRONMENT) && (u.runtime || Find(u.user, ExecStart(CANONICAL, u.executable)).None?)
    ensures Render(CANONICAL, Print(CANONICAL, u)).Some? ==>
              Render(CANONICAL, Print(CANONICAL, u)).value == Print(CANONICAL, u.(runtime := true, bridge := true))
  {
    hide CANONICAL, Print, Render, Parse, ENVIRONMENT, EndsWith, Good, ExecStart, Find;
    InstalledUnitsParse(Print(CANONICAL, u), u);
    InstalledUnitsRender(Print(CANONICAL, u));
    InstalledAnchors(u);
    if !u.runtime {
      InstalledStarts(u);
      CountIsFound(u.user, ExecStart(CANONICAL, u.executable));
    }
  }

  lemma CountIsFound(s: string, p: string)
    requires p != ""
    ensures Count(s, p) == 0 <==> Find(s, p).None?
  {
  }

  // ---------------------------------------------------------------------- one Worker

  const SMOKE := Unit("astrumweaver", "/usr/local/bin/" + "astrumweaver-worker", false, false)

  lemma SmokeDirectory()
    ensures NoSpace("/usr/local/bin/")
  {
  }

  lemma SmokeName()
    ensures NoSpace("astrumweaver-worker")
  {
  }

  lemma NotStored(x: string)
    requires |x| > 1 && x[1] != 'n'
    ensures !("/nix/store/" <= x)
  {
    assert "/nix/store/"[1] == 'n';
  }

  lemma Stripped(s: string)
    requires s != "" && !Space(s[0]) && !Space(s[|s| - 1])
    ensures Strip(s) == s
  {
  }

  lemma SmokeUser()
    ensures SMOKE.user != "" && OneLine(SMOKE.user) && Strip(SMOKE.user) == SMOKE.user
  {
    Stripped("astrumweaver");
    hide Strip;
  }

  lemma SmokeProgram()
    ensures var x := SMOKE.executable; |x| > 2 && x[0] == '/' && NoSpace(x) && !("/nix/store/" <= x)
  {
    SmokeDirectory();
    SmokeName();
    SpacelessConcat("/usr/local/bin/", "astrumweaver-worker");
    hide NoSpace;
    var x := SMOKE.executable;
    assert x[0] == "/usr/local/bin/"[0] && x[1] == "/usr/local/bin/"[1];
    NotStored(x);
  }

  lemma SmokeIsGood()
    ensures Good(SMOKE)
  {
    hide NoSpace, OneLine, Strip;
    SmokeUser();
    SmokeProgram();
  }

  lemma SpacelessConcat(a: string, b: string)
    requires NoSpace(a) && NoSpace(b)
    ensures NoSpace(a + b)
  {
  }

  /** The Worker as installed is recognized and patched. */
  lemma SmokeIsPatched()
    ensures Parse(CANONICAL, Print(CANONICAL, SMOKE)) == Some(SMOKE)
    ensures Render(CANONICAL, Print(CANONICAL, SMOKE)) == Some(Print(CANONICAL, SMOKE.(runtime := true, bridge := true)))
  {
    hide CANONICAL, Print, Render, Parse, ENVIRONMENT, EndsWith, Good, ExecStart, Find;
    SmokeIsGood();
    InstalledUnitsParse(Print(CANONICAL, SMOKE), SMOKE);
    InstalledUnitsPatch(SMOKE);
    SmokeUserIsShort();
  }

  lemma SmokeUserIsShort()
    ensures !EndsWith(SMOKE.user, ENVIRONMENT) && Find(SMOKE.user, ExecStart(CANONICAL, SMOKE.executable)).None?
  {
    hide CANONICAL;
    var p := ExecStart(CANONICAL, SMOKE.executable);
    assert |p| > 12;
    FindIsFirst(SMOKE.user, p);
  }

  const AMBIGUOUS := Unit(ENVIRONMENT, SMOKE.executable, false, false)

  /** A unit whose user is spelled like the environment line is recognized but not patched. */
  lemma AmbiguousIsRefused()
    ensures Parse(CANONICAL, Print(CANONICAL, AMBIGUOUS)) == Some(AMBIGUOUS)
    ensures Render(CANONICAL, Print(CANONICAL, AMBIGUOUS)).None?
  {
    hide CANONICAL, Print, Render, Parse, EndsWith, OneLine, NoSpace, ExecStart, Find;
    SmokeProgram();
    EnvironmentBegins();
    Stripped(ENVIRONMENT);
    hide ENVIRONMENT, Strip;
    EndsSelf(ENVIRONMENT);
    InstalledUnitsParse(Print(CANONICAL, AMBIGUOUS), AMBIGUOUS);
    InstalledUnitsPatch(AMBIGUOUS);
  }
}
