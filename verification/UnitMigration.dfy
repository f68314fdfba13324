/** The installed Worker unit: recognizing the canonical form, printing it, and the
    textual patch that moves a Worker from smoke to runtime execution. */
module UnitMigration {
  import opened Contracts

  datatype Unit = Unit(user: string, executable: string, runtime: bool, bridge: bool)

  // ------------------------------------------------------------------ fixed text

  /** The fixed parts of a canonical unit file. */
  datatype Template = Template(
    prefix: string, suffix: string, supplementary: string, environment: string, driver: string,
    preflight: string, configArgument: string, manifestArgument: string)
  {
    predicate Valid() {
      '\n' !in environment && '\n' !in configArgument
    }
  }

  const NEWLINE := "\n"

  function Unlines(lines: seq<string>): string {
    if lines == [] then "" else lines[0] + NEWLINE + Unlines(lines[1..])
  }

  const UNIT_SECTION :=
    ["[Unit]", "Description=" + "AstrumWeaver GPU Worker", "Wants=" + "network-online.target", "After=" + "network-online.target", ""]
  const SERVICE_SECTION := ["[Service]", "Type=simple"]
  const RESTARTING :=
    ["Restart=" + "on-failure", "RestartSec=5s", "RuntimeDirectory=" + "astrumweaver-worker", "RuntimeDirectoryMode=" + "0750"]
  const KEEPING := ["StateDirectory=" + "astrumweaver", "StateDirectoryMode=" + "0750"]
  const HARDENING := ["NoNewPrivileges=" + "yes", "PrivateTmp=yes", "ProtectSystem=" + "strict", "ProtectHome=yes"]
  const CONFINING :=
    ["ProtectKernelTunables=" + "yes", "ProtectKernelModules=" + "yes", "ProtectControlGroups=" + "yes",
     "RestrictAddressFamilies=" + "AF_UNIX AF_INET AF_INET6", ""]
  const INSTALL_SECTION := ["[Install]", "WantedBy=" + "multi-user.target"]

  const BEFORE := UNIT_SECTION + SERVICE_SECTION
  const AFTER := RESTARTING + KEEPING + HARDENING + CONFINING + INSTALL_SECTION

  const SUPPLEMENTARY := "SupplementaryGroups=" + "astrumweaver-config"
  const ENVIRONMENT := "EnvironmentFile=" + "-/etc/astrumweaver/worker.env"
  const DRIVER := "Environment=" + ("LD_LIBRARY_PATH=" + "/etc/astrumweaver/runtime/" + "nvidia-driver")
  const PREFLIGHT := "ExecStartPre=" + ("+/usr/local/libexec/" + "astrumweaver/gpu-preflight " + "/etc/astrumweaver/gpu-uuids")
  const CONFIG_ARGUMENT := " --config " + "/etc/astrumweaver/worker.toml"
  const MANIFEST_ARGUMENT := " --runtime-manifest " + "/etc/astrumweaver/" + "runtime-deployment.json"

  const CANONICAL :=
    Template(Unlines(BEFORE), Unlines(AFTER), SUPPLEMENTARY, ENVIRONMENT, DRIVER, PREFLIGHT, CONFIG_ARGUMENT, MANIFEST_ARGUMENT)

  function Anchor(t: Template): string { t.environment + NEWLINE }

  function ExecStart(t: Template, executable: string): string { "ExecStart=" + executable + t.configArgument }

  /** The unit up to and with its user line. */
  function Head(t: Template, user: string): string {
    t.prefix + "User=" + user + NEWLINE
  }

  function Groups(t: Template, user: string): string {
    "Group=" + user + NEWLINE + t.supplementary + NEWLINE
  }

  function Print(t: Template, u: Unit): string {
    Head(t, u.user) + Groups(t, u.user) + Anchor(t)
    + (if u.bridge then t.driver + NEWLINE else "")
    + t.preflight + NEWLINE
    + ExecStart(t, u.executable) + (if u.runtime then t.manifestArgument else "") + NEWLINE
    + t.suffix
  }

  // ---------------------------------------------------------------- text operations

  predicate LineBreak(c: char) {
    c == '\n' || c == '\r' || c == '\U{0B}' || c == '\U{0C}' || '\U{1C}' <= c <= '\U{1E}'
    || c == '\U{85}' || c == '\U{2028}' || c == '\U{2029}'
  }

  predicate Space(c: char) {
    LineBreak(c) || c == '\t' || c == ' ' || c == '\U{1F}' || c == '\U{A0}' || c == '\U{1680}'
    || '\U{2000}' <= c <= '\U{200A}' || c == '\U{202F}' || c == '\U{205F}' || c == '\U{3000}'
  }

  predicate OneLine(s: string) {
    forall c :: c in s ==> !LineBreak(c)
  }

  predicate NoSpace(s: string) {
    forall c :: c in s ==> !Space(c)
  }

  /** Position of the first line break, or the length. */
  function LineEnd(s: string): nat {
    if s == "" || LineBreak(s[0]) then 0 else 1 + LineEnd(s[1..])
  }

  lemma {:induction false} LineEndBounds(s: string)
    ensures LineEnd(s) <= |s|
    ensures OneLine(s[..LineEnd(s)])
    ensures LineEnd(s) < |s| ==> LineBreak(s[LineEnd(s)])
    decreases |s|
  {
    if s != "" && !LineBreak(s[0]) {
      LineEndBounds(s[1..]);
      assert s[..LineEnd(s)] == [s[0]] + s[1..][..LineEnd(s[1..])];
    }
  }

  /** The lines of a text without their ends; a carriage return and the newline after it
      are one end. */
  function Lines(s: string): seq<string>
    decreases |s|
  {
    LineEndBounds(s);
    var n := LineEnd(s);
    if s == "" then []
    else if n == |s| then [s]
    else [s[..n]] + Lines(if s[n] == '\r' && n + 1 < |s| && s[n + 1] == '\n' then s[n + 2..] else s[n + 1..])
  }

  function Starting(lines: seq<string>, prefix: string): seq<string> {
    if lines == [] then []
    else (if prefix <= lines[0] then [lines[0]] else []) + Starting(lines[1..], prefix)
  }

  function StripLeft(s: string): string {
    if s != "" && Space(s[0]) then StripLeft(s[1..]) else s
  }

  function StripRight(s: string): string {
    if s != "" && Space(s[|s| - 1]) then StripRight(s[..|s| - 1]) else s
  }

  function Strip(s: string): string {
    StripRight(StripLeft(s))
  }

  function AfterEquals(s: string): string {
    if s == "" then "" else if s[0] == '=' then s[1..] else AfterEquals(s[1..])
  }

  function Word(s: string): nat {
    if s == "" || Space(s[0]) then 0 else 1 + Word(s[1..])
  }

  predicate Occurs(s: string, pattern: string, i: nat) {
    i + |pattern| <= |s| && s[i..i + |pattern|] == pattern
  }

  function Find(s: string, pattern: string): Option<nat>
    decreases |s|
  {
    if pattern <= s then Some(0)
    else if s == "" then None
    else match Find(s[1..], pattern) case None => None case Some(k) => Some(k + 1)
  }

  /** Non-overlapping occurrences from the left. */
  function Count(s: string, pattern: string): nat
    requires pattern != ""
    decreases |s|
  {
    match Find(s, pattern)
    case None => 0
    case Some(k) => FindIsFirst(s, pattern); 1 + Count(s[k + |pattern|..], pattern)
  }

  function ReplaceFirst(s: string, pattern: string, replacement: string): string {
    match Find(s, pattern)
    case None => s
    case Some(k) => FindIsFirst(s, pattern); s[..k] + replacement + s[k + |pattern|..]
  }

  lemma {:induction false} FindIsFirst(s: string, pattern: string)
    ensures Find(s, pattern).Some? ==> Occurs(s, pattern, Find(s, pattern).value)
    decreases |s|
  {
    if !(pattern <= s) && s != "" {
      FindIsFirst(s[1..], pattern);
      if Find(s[1..], pattern).Some? {
        var k := Find(s[1..], pattern).value;
        assert s[k + 1..k + 1 + |pattern|] == s[1..][k..k + |pattern|];
      }
    }
  }

  lemma {:induction false} FindReaches(s: string, pattern: string, i: nat)
    requires Occurs(s, pattern, i)
    ensures Find(s, pattern).Some? && Find(s, pattern).value <= i
    decreases |s|
  {
    assert i == 0 ==> s[..|pattern|] == pattern;
    if !(pattern <= s) {
      assert s[1..][i - 1..i - 1 + |pattern|] == s[i..i + |pattern|];
      FindReaches(s[1..], pattern, i - 1);
    }
  }

  lemma OccursShifted(s: string, pattern: string, k: nat, j: nat)
    requires Occurs(s, pattern, j) && k <= j
    ensures k <= |s| && Occurs(s[k..], pattern, j - k)
  {
    assert s[k..][j - k..j - k + |pattern|] == s[j..j + |pattern|];
  }

  lemma OccursBetween(a: string, pattern: string, b: string)
    ensures Occurs(a + pattern + b, pattern, |a|)
  {
  }

  /** Two occurrences side by side are counted twice. */
  lemma ApartCountTwice(s: string, pattern: string, i: nat, j: nat)
    requires pattern != "" && Occurs(s, pattern, i) && Occurs(s, pattern, j) && i + |pattern| <= j
    ensures Count(s, pattern) >= 2
  {
    FindReaches(s, pattern, i);
    FindIsFirst(s, pattern);
    var k := Find(s, pattern).value + |pattern|;
    OccursShifted(s, pattern, k, j);
    FindReaches(s[k..], pattern, j - k);
    FindIsFirst(s[k..], pattern);
  }

  // ------------------------------------------------------------------------ parsing

  /** The executable of a recognized start line, and whether it names a manifest. */
  function MatchExec(t: Template, line: string): Option<(string, bool)> {
    if !("ExecStart=" <= line) then None
    else
      var rest := line[10..];
      WordBounds(rest);
      var executable, tail := rest[..Word(rest)], rest[Word(rest)..];
      if |executable| < 2 || executable[0] != '/' then None
      else if tail == t.configArgument then Some((executable, false))
      else if tail == t.configArgument + t.manifestArgument then Some((executable, true))
      else None
  }

  lemma {:induction false} WordBounds(s: string)
    ensures Word(s) <= |s| && NoSpace(s[..Word(s)])
    decreases |s|
  {
    if s != "" && !Space(s[0]) {
      WordBounds(s[1..]);
      assert s[..Word(s)] == [s[0]] + s[1..][..Word(s[1..])];
    }
  }

  /** The unit a text spells, or `None` where the source refuses it. */
  function Parse(t: Template, text: string): Option<Unit> {
    var lines := Lines(text);
    var users, groups := Starting(lines, "User="), Starting(lines, "Group=");
    var supplementary, environment := Starting(lines, "SupplementaryGroups="), Starting(lines, "EnvironmentFile=");
    var drivers, preflight := Starting(lines, "Environment="), Starting(lines, "ExecStartPre=");
    var starts := Starting(lines, "ExecStart=");
    if !(t.prefix <= text && |t.suffix| <= |text| && text[|text| - |t.suffix|..] == t.suffix) then None
    else if !(|users| == |groups| == |supplementary| == |environment| == |preflight| == |starts| == 1) then None
    else
      var user, group, start := Strip(AfterEquals(users[0])), Strip(AfterEquals(groups[0])), MatchExec(t, starts[0]);
      if user == "" || group != user then None
      else if supplementary[0] != t.supplementary || environment[0] != t.environment then None
      else if preflight[0] != t.preflight then None
      else if start.None? || "/nix/store/" <= start.value.0 then None
      else if start.value.1 && drivers != [] && drivers != [t.driver] then None
      else if !start.value.1 && drivers != [] then None
      else
        var unit := Unit(user, start.value.0, start.value.1, drivers != []);
        if text == Print(t, unit) then Some(unit) else None
  }

  lemma {:induction false} LinesAreLines(s: string)
    ensures forall line :: line in Lines(s) ==> OneLine(line)
    decreases |s|
  {
    LineEndBounds(s);
    var n := LineEnd(s);
    if s != "" {
      if n == |s| {
        assert s[..n] == s;
      } else {
        LinesAreLines(if s[n] == '\r' && n + 1 < |s| && s[n + 1] == '\n' then s[n + 2..] else s[n + 1..]);
      }
    }
  }

  lemma {:induction false} StartingSelects(lines: seq<string>, prefix: string)
    ensures forall line :: line in Starting(lines, prefix) ==> line in lines && prefix <= line
  {
    if lines != [] { StartingSelects(lines[1..], prefix); }
  }

  lemma {:induction false} StripLeftStays(s: string)
    requires OneLine(s)
    ensures OneLine(StripLeft(s))
  {
    if s != "" && Space(s[0]) { StripLeftStays(s[1..]); }
  }

  lemma {:induction false} StripRightStays(s: string)
    requires OneLine(s)
    ensures OneLine(StripRight(s))
  {
    if s != "" && Space(s[|s| - 1]) { StripRightStays(s[..|s| - 1]); }
  }

  lemma {:induction false} AfterEqualsStays(s: string)
    requires OneLine(s)
    ensures OneLine(AfterEquals(s))
  {
    if s != "" && s[0] != '=' { AfterEqualsStays(s[1..]); }
  }

  /** A recognized text is the print of its unit, and the unit's fields stay on one line. */
  lemma ParsedIsPrinted(t: Template, text: string)
    requires Parse(t, text).Some?
    ensures var u := Parse(t, text).value;
            text == Print(t, u) && OneLine(u.user) && u.user != "" && NoSpace(u.executable) && u.executable != ""
            && (u.bridge ==> u.runtime)
  {
    var lines := Lines(text);
    LinesAreLines(text);
    StartingSelects(lines, "User=");
    StartingSelects(lines, "ExecStart=");
    var user := Starting(lines, "User=")[0];
    assert user in lines;
    AfterEqualsStays(user);
    StripLeftStays(AfterEquals(user));
    StripRightStays(StripLeft(AfterEquals(user)));
    var start := Starting(lines, "ExecStart=")[0];
    WordBounds(start[10..]);
  }

  // ---------------------------------------------------------------------- rendering

  /** The patched text, or `None` where the source refuses. */
  function Render(t: Template, text: string): Option<string> {
    var parsed := Parse(t, text);
    if parsed.None? then None
    else
      var unit := parsed.value;
      if unit.runtime && unit.bridge then Some(text)
      else if !unit.runtime && Count(text, ExecStart(t, unit.executable)) != 1 then None
      else if Count(text, Anchor(t)) != 1 then None
      else
        var bridged := ReplaceFirst(text, Anchor(t), Anchor(t) + t.driver + NEWLINE);
        var rendered :=
          if unit.runtime then bridged
          else ReplaceFirst(bridged, ExecStart(t, unit.executable), ExecStart(t, unit.executable) + t.manifestArgument);
        var migrated := Parse(t, rendered);
        if migrated.None? || !migrated.value.runtime || !migrated.value.bridge then None
        else if migrated.value.executable != unit.executable then None
        else Some(rendered)
  }

  lemma OccursAt(s: string, pattern: string, k: nat)
    requires Occurs(s, pattern, k)
    ensures forall i :: k <= i < k + |pattern| ==> s[i] == pattern[i - k]
  {
    assert forall i :: k <= i < k + |pattern| ==> s[i] == s[k..k + |pattern|][i - k];
  }

  /** An anchor counted once is found where it stands. */
  lemma AnchorFound(t: Template, s: string, j: nat)
    requires t.Valid()
    requires Occurs(s, Anchor(t), j) && Count(s, Anchor(t)) == 1
    ensures Find(s, Anchor(t)) == Some(j)
  {
    var a := Anchor(t);
    FindReaches(s, a, j);
    FindIsFirst(s, a);
    var k := Find(s, a).value;
    if k < j {
      LinesApart(s, a, k, j);
      ApartCountTwice(s, a, k, j);
    }
  }

  /** Two occurrences of a whole line do not overlap. */
  lemma LinesApart(s: string, a: string, k: nat, j: nat)
    requires Occurs(s, a, k) && Occurs(s, a, j) && k < j
    requires a != "" && a[|a| - 1] == '\n' && forall i :: 0 <= i < |a| - 1 ==> a[i] != '\n'
    ensures k + |a| <= j
  {
    OccursAt(s, a, k);
    OccursAt(s, a, j);
    assert s[k + |a| - 1] == '\n';
  }

  /** Replacing the first start line leaves everything up to the user line alone. */
  lemma ReplaceKeepsHead(before: string, after: string, head: string, pattern: string, replacement: string, j: nat)
    requires pattern != "" && '\n' !in pattern && head != "" && head[|head| - 1] == '\n'
    requires head <= before && head <= after
    requires Occurs(before, pattern, j) && |head| <= j && Count(before, pattern) == 1
    ensures head <= ReplaceFirst(after, pattern, replacement)
  {
    FindIsFirst(after, pattern);
    if Find(after, pattern).Some? {
      var k := Find(after, pattern).value;
      OccursAt(after, pattern, k);
      assert after[|head| - 1] == head[|head| - 1];
      if k < |head| {
        assert before[k..k + |pattern|] == head[k..k + |pattern|] == after[k..k + |pattern|];
        ApartCountTwice(before, pattern, k, j);
      } else {
        assert after[..k][..|head|] == head;
      }
    }
  }

  lemma SameLine(a: string, b: string, s: string)
    requires '\n' !in a && '\n' !in b && a + NEWLINE <= s && b + NEWLINE <= s
    ensures a == b
  {
    StartsLine(a, s);
    StartsLine(b, s);
    assert s[..|a|] == a && s[..|b|] == b;
  }

  lemma StartsLine(a: string, s: string)
    requires a + NEWLINE <= s && '\n' !in a
    ensures s[..|a|] == a && s[|a|] == '\n'
    ensures forall i :: 0 <= i < |a| ==> s[i] != '\n'
  {
    assert s[..|a|] == (a + NEWLINE)[..|a|] == a;
    assert s[|a|] == (a + NEWLINE)[|a|];
    assert forall i :: 0 <= i < |a| ==> s[i] == a[i];
  }

  lemma Layout(head: string, groups: string, anchor: string, middle: string, start: string, tail: string)
    ensures var text := head + groups + anchor + middle + start + tail;
            && Occurs(text, anchor, |head + groups|)
            && Occurs(text, start, |head + groups + anchor + middle|)
            && head <= text
  {
    OccursBetween(head + groups, anchor, middle + start + tail);
    assert head + groups + anchor + middle + start + tail == head + groups + anchor + (middle + start + tail);
    OccursBetween(head + groups + anchor + middle, start, tail);
  }

  /** Where the anchor and the start line stand in a printed unit. */
  lemma Landmarks(t: Template, u: Unit) returns (anchor: nat, start: nat)
    ensures |Head(t, u.user)| <= anchor <= start
    ensures Occurs(Print(t, u), Anchor(t), anchor) && Occurs(Print(t, u), ExecStart(t, u.executable), start)
    ensures Head(t, u.user) <= Print(t, u)
    ensures Head(t, u.user) != "" && Head(t, u.user)[|Head(t, u.user)| - 1] == '\n'
  {
    hide Groups, Anchor, ExecStart, Print, Occurs;
    var m := (if u.bridge then t.driver + NEWLINE else "") + t.preflight + NEWLINE;
    var tail := (if u.runtime then t.manifestArgument else "") + NEWLINE + t.suffix;
    PrintedAs(t, u, m, tail);
    Layout(Head(t, u.user), Groups(t, u.user), Anchor(t), m, ExecStart(t, u.executable), tail);
    anchor := |Head(t, u.user) + Groups(t, u.user)|;
    start := |Head(t, u.user) + Groups(t, u.user) + Anchor(t) + m|;
  }

  lemma PrintedAs(t: Template, u: Unit, m: string, tail: string)
    requires m == (if u.bridge then t.driver + NEWLINE else "") + t.preflight + NEWLINE
    requires tail == (if u.runtime then t.manifestArgument else "") + NEWLINE + t.suffix
    ensures Print(t, u) == Head(t, u.user) + Groups(t, u.user) + Anchor(t) + m + ExecStart(t, u.executable) + tail
  {
    hide Head, Groups, Anchor, ExecStart;
  }

  lemma AfterPrefix(start: string, a: string, s: string)
    requires start + a <= s
    ensures |start| <= |s| && a <= s[|start|..]
  {
    assert (start + a)[|start|..] == a;
  }

  lemma SameUser(t: Template, u: Unit, m: Unit, text: string)
    requires OneLine(u.user) && OneLine(m.user)
    requires Head(t, u.user) <= text && text == Print(t, m)
    ensures u.user == m.user
  {
    hide Print;
    var start := t.prefix + "User=";
    var anchor, at := Landmarks(t, m);
    assert Head(t, u.user) == start + (u.user + NEWLINE);
    assert Head(t, m.user) == start + (m.user + NEWLINE);
    AfterPrefix(start, u.user + NEWLINE, text);
    AfterPrefix(start, m.user + NEWLINE, text);
    SameLine(u.user, m.user, text[|start|..]);
  }

  /** The patch agrees with the record update: rendering yields exactly the printed unit in
      runtime mode with the driver bridge, user and executable unchanged, and rendering
      the result again changes nothing. */
  lemma RenderIsRecordUpdate(t: Template, text: string)
    requires t.Valid() && Render(t, text).Some?
    ensures Parse(t, text).Some? && text == Print(t, Parse(t, text).value)
    ensures var u := Parse(t, text).value.(runtime := true, bridge := true);
            && Render(t, text) == Some(Print(t, u))
            && Parse(t, Print(t, u)) == Some(u)
            && Render(t, Print(t, u)) == Some(Print(t, u))
  {
    hide Parse, Print, Count, ReplaceFirst, Anchor, ExecStart;
    var u := Parse(t, text).value;
    var r := Render(t, text).value;
    ParsedIsPrinted(t, text);
    if !(u.runtime && u.bridge) {
      var m := Parse(t, r).value;
      ParsedIsPrinted(t, r);
      RenderKeepsHead(t, text);
      SameUser(t, u, m, r);
      assert m == u.(runtime := true, bridge := true);
    }
  }

  lemma RenderKeepsHead(t: Template, text: string)
    requires t.Valid() && Render(t, text).Some? && !(Parse(t, text).value.runtime && Parse(t, text).value.bridge)
    ensures Head(t, Parse(t, text).value.user) <= Render(t, text).value
  {
    hide Parse, Print, Count, Head, Anchor;
    var u := Parse(t, text).value;
    ParsedIsPrinted(t, text);
    var anchor, start := Landmarks(t, u);
    var head := Head(t, u.user);
    AnchorFound(t, text, anchor);
    var bridged := ReplaceFirst(text, Anchor(t), Anchor(t) + t.driver + NEWLINE);
    assert text[..anchor][..|head|] == head;
    assert head <= bridged;
    if !u.runtime {
      ReplaceKeepsHead(text, bridged, head, ExecStart(t, u.executable), ExecStart(t, u.executable) + t.manifestArgument, start);
    }
  }
}
