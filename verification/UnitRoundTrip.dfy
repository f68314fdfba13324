/** Printing and parsing a Worker unit are inverse, for every template whose fixed lines
    start none of the directives the parser looks for. */
module UnitRoundTrip {
  import opened Contracts
  import opened UnitMigration

  // --------------------------------------------------------------------------- lines

  predicate AllOneLine(lines: seq<string>) {
    forall i :: 0 <= i < |lines| ==> OneLine(lines[i])
  }

  lemma {:induction false} LineEndsAt(line: string, rest: string)
    requires OneLine(line)
    ensures LineEnd(line + NEWLINE + rest) == |line|
    decreases |line|
  {
    var s := line + NEWLINE + rest;
    if line == "" {
      assert s[0] == '\n';
    } else {
      assert s[0] == line[0] && line[0] in line;
      assert s[1..] == line[1..] + NEWLINE + rest;
      assert forall c :: c in line[1..] ==> c in line;
      LineEndsAt(line[1..], rest);
    }
  }

  lemma FirstLine(line: string, rest: string)
    requires OneLine(line)
    ensures Lines(line + NEWLINE + rest) == [line] + Lines(rest)
  {
    var s := line + NEWLINE + rest;
    LineEndsAt(line, rest);
    assert s[|line|] == '\n' && s[..|line|] == line && s[|line| + 1..] == rest;
  }

  lemma {:induction false} LinesOfUnlines(lines: seq<string>)
    requires AllOneLine(lines)
    ensures Lines(Unlines(lines)) == lines
  {
    if lines != [] {
      FirstLine(lines[0], Unlines(lines[1..]));
      LinesOfUnlines(lines[1..]);
    }
  }

  lemma {:induction false} UnlinesConcat(a: seq<string>, b: seq<string>)
    ensures Unlines(a + b) == Unlines(a) + Unlines(b)
  {
    if a == [] {
      assert a + b == b;
    } else {
      assert (a + b)[0] == a[0] && (a + b)[1..] == a[1..] + b;
      UnlinesConcat(a[1..], b);
      assert a[0] + NEWLINE + (Unlines(a[1..]) + Unlines(b)) == a[0] + NEWLINE + Unlines(a[1..]) + Unlines(b);
    }
  }

  lemma {:induction false} StartingConcat(a: seq<string>, b: seq<string>, p: string)
    ensures Starting(a + b, p) == Starting(a, p) + Starting(b, p)
  {
    if a == [] {
      assert a + b == b;
    } else {
      assert (a + b)[0] == a[0] && (a + b)[1..] == a[1..] + b;
      StartingConcat(a[1..], b, p);
    }
  }

  lemma {:induction false} StartingNone(lines: seq<string>, p: string)
    requires forall i :: 0 <= i < |lines| ==> !(p <= lines[i])
    ensures Starting(lines, p) == []
  {
    if lines != [] { StartingNone(lines[1..], p); }
  }

  // ---------------------------------------------------------------------- directives

  /** What a line's first characters must be for it to start with each directive. */
  lemma StartChars(line: string)
    ensures "User=" <= line ==> line[0] == 'U'
    ensures "Group=" <= line ==> line[0] == 'G'
    ensures "SupplementaryGroups=" <= line ==> line[0] == 'S' && line[1] == 'u'
    ensures "EnvironmentFile=" <= line ==> line[0] == 'E' && line[1] == 'n' && line[11] == 'F'
    ensures "Environment=" <= line ==> line[0] == 'E' && line[1] == 'n' && line[11] == '='
    ensures "ExecStartPre=" <= line ==> line[0] == 'E' && line[1] == 'x' && line[9] == 'P'
    ensures "ExecStart=" <= line ==> line[0] == 'E' && line[1] == 'x' && line[9] == '='
  {
    if "User=" <= line { assert line[0] == "User="[0]; }
    if "Group=" <= line { assert line[0] == "Group="[0]; }
    if "SupplementaryGroups=" <= line {
      assert line[0] == "SupplementaryGroups="[0] && line[1] == "SupplementaryGroups="[1];
    }
    if "EnvironmentFile=" <= line {
      assert line[0] == "EnvironmentFile="[0] && line[1] == "EnvironmentFile="[1] && line[11] == "EnvironmentFile="[11];
    }
    if "Environment=" <= line {
      assert line[0] == "Environment="[0] && line[1] == "Environment="[1] && line[11] == "Environment="[11];
    }
    if "ExecStartPre=" <= line {
      assert line[0] == "ExecStartPre="[0] && line[1] == "ExecStartPre="[1] && line[9] == "ExecStartPre="[9];
    }
    if "ExecStart=" <= line {
      assert line[0] == "ExecStart="[0] && line[1] == "ExecStart="[1] && line[9] == "ExecStart="[9];
    }
  }

  /** The seven directives the parser looks for; 7 stands for none of them. */
  predicate StartsOnly(line: string, d: int) {
    && ("User=" <= line <==> d == 0)
    && ("Group=" <= line <==> d == 1)
    && ("SupplementaryGroups=" <= line <==> d == 2)
    && ("EnvironmentFile=" <= line <==> d == 3)
    && ("Environment=" <= line <==> d == 4)
    && ("ExecStartPre=" <= line <==> d == 5)
    && ("ExecStart=" <= line <==> d == 6)
  }

  predicate Foreign(lines: seq<string>) {
    forall i :: 0 <= i < |lines| ==> StartsOnly(lines[i], 7)
  }

  /** The template spelled as lines: what surrounds the directives starts none of them, and
      the start line cannot occur inside the driver line. */
  predicate Canonical(t: Template, before: seq<string>, after: seq<string>) {
    && t.prefix == Unlines(before) && AllOneLine(before) && Foreign(before)
    && t.suffix == Unlines(after) && AllOneLine(after) && Foreign(after)
    && OneLine(t.supplementary) && StartsOnly(t.supplementary, 2)
    && OneLine(t.environment) && StartsOnly(t.environment, 3)
    && OneLine(t.driver) && StartsOnly(t.driver, 4) && Find(t.driver, "ExecStart=").None?
    && OneLine(t.preflight) && StartsOnly(t.preflight, 5)
    && OneLine(t.configArgument) && t.configArgument != "" && Space(t.configArgument[0])
    && OneLine(t.manifestArgument) && t.manifestArgument != ""
  }

  /** A unit the parser can produce. */
  predicate Good(u: Unit) {
    && u.user != "" && OneLine(u.user) && Strip(u.user) == u.user
    && |u.executable| >= 2 && u.executable[0] == '/' && NoSpace(u.executable)
    && !("/nix/store/" <= u.executable)
    && (u.bridge ==> u.runtime)
  }

  function ExecLine(t: Template, u: Unit): string {
    ExecStart(t, u.executable) + (if u.runtime then t.manifestArgument else "")
  }

  /** The lines between the fixed parts. */
  function Body(t: Template, u: Unit): seq<string> {
    if u.bridge then
      ["User=" + u.user, "Group=" + u.user, t.supplementary, t.environment, t.driver, t.preflight, ExecLine(t, u)]
    else
      ["User=" + u.user, "Group=" + u.user, t.supplementary, t.environment, t.preflight, ExecLine(t, u)]
  }

  function Directive(u: Unit, i: nat): int {
    if i < 4 || u.bridge then i else i + 1
  }

  lemma UserLines(x: string)
    ensures StartsOnly("User=" + x, 0) && StartsOnly("Group=" + x, 1)
  {
    StartChars("User=" + x);
    StartChars("Group=" + x);
    assert "User=" <= "User=" + x && "Group=" <= "Group=" + x;
  }

  lemma ExecLineStarts(t: Template, u: Unit)
    ensures StartsOnly(ExecLine(t, u), 6)
  {
    var line := ExecLine(t, u);
    StartChars(line);
    assert line == "ExecStart=" + (u.executable + t.configArgument + (if u.runtime then t.manifestArgument else ""));
    assert "ExecStart=" <= line;
  }

  lemma BodyStarts(t: Template, u: Unit, before: seq<string>, after: seq<string>)
    requires Canonical(t, before, after)
    ensures forall i :: 0 <= i < |Body(t, u)| ==> StartsOnly(Body(t, u)[i], Directive(u, i))
  {
    hide StartsOnly, ExecLine;
    UserLines(u.user);
    ExecLineStarts(t, u);
  }

  lemma OneLineConcat(a: string, b: string)
    requires OneLine(a) && OneLine(b)
    ensures OneLine(a + b)
  {
  }

  lemma BodyOneLine(t: Template, u: Unit, before: seq<string>, after: seq<string>)
    requires Canonical(t, before, after) && Good(u)
    ensures AllOneLine(Body(t, u))
  {
    hide StartsOnly, Strip;
    OneLineConcat("User=", u.user);
    OneLineConcat("Group=", u.user);
    assert OneLine(u.executable) by { hide LineBreak; }
    OneLineConcat("ExecStart=", u.executable);
    OneLineConcat("ExecStart=" + u.executable, t.configArgument);
    OneLineConcat(ExecStart(t, u.executable), t.manifestArgument);
    OneLineConcat(ExecStart(t, u.executable), "");
    hide LineBreak, OneLine;
  }

  lemma UnlinesCons(line: string, rest: seq<string>)
    ensures Unlines([line] + rest) == line + NEWLINE + Unlines(rest)
  {
    assert ([line] + rest)[1..] == rest;
  }

  /** Six lines as one text, with an optional one among them. */
  lemma UnlinesSix(a: string, b: string, c: string, d: string, opt: seq<string>, e: string, f: string)
    ensures Unlines([a] + ([b] + ([c] + ([d] + (opt + ([e] + ([f] + [])))))))
            == a + NEWLINE + (b + NEWLINE + (c + NEWLINE + (d + NEWLINE + (Unlines(opt) + (e + NEWLINE + (f + NEWLINE + ""))))))
  {
    hide Unlines;
    UnlinesCons(f, []);
    UnlinesEmpty();
    UnlinesCons(e, [f] + []);
    UnlinesConcat(opt, [e] + ([f] + []));
    UnlinesCons(d, opt + ([e] + ([f] + [])));
    UnlinesCons(c, [d] + (opt + ([e] + ([f] + []))));
    UnlinesCons(b, [c] + ([d] + (opt + ([e] + ([f] + [])))));
    UnlinesCons(a, [b] + ([c] + ([d] + (opt + ([e] + ([f] + []))))));
  }

  lemma UnlinesEmpty()
    ensures Unlines([]) == ""
  {
  }

  function Optional(t: Template, u: Unit): seq<string> {
    if u.bridge then [t.driver] else []
  }

  lemma BodyAsList(t: Template, u: Unit)
    ensures Body(t, u) ==
            ["User=" + u.user] + (["Group=" + u.user] + ([t.supplementary] + ([t.environment]
              + (Optional(t, u) + ([t.preflight] + ([ExecLine(t, u)] + []))))))
  {
    hide ExecLine;
  }

  lemma PrintIsUnlines(t: Template, u: Unit, before: seq<string>, after: seq<string>)
    requires Canonical(t, before, after)
    ensures Print(t, u) == Unlines(before + Body(t, u) + after)
  {
    hide Canonical, Unlines, StartsOnly, ExecLine;
    var opt := if u.bridge then t.driver + NEWLINE else "";
    CanonicalTexts(t, before, after);
    UnlinesConcat(before + Body(t, u), after);
    UnlinesConcat(before, Body(t, u));
    BodyAsList(t, u);
    UnlinesSix("User=" + u.user, "Group=" + u.user, t.supplementary, t.environment, Optional(t, u), t.preflight, ExecLine(t, u));
    OptionalText(t, u);
    PrintFlat(t, u, opt);
  }

  lemma CanonicalTexts(t: Template, before: seq<string>, after: seq<string>)
    requires Canonical(t, before, after)
    ensures t.prefix == Unlines(before) && t.suffix == Unlines(after)
  {
  }

  lemma OptionalText(t: Template, u: Unit)
    ensures Unlines(Optional(t, u)) == if u.bridge then t.driver + NEWLINE else ""
  {
    if u.bridge { assert [t.driver] == [t.driver] + []; UnlinesCons(t.driver, []); }
  }

  lemma PrintFlat(t: Template, u: Unit, opt: string)
    requires opt == if u.bridge then t.driver + NEWLINE else ""
    ensures Print(t, u) ==
            t.prefix
            + ("User=" + u.user + NEWLINE + ("Group=" + u.user + NEWLINE + (t.supplementary + NEWLINE + (t.environment + NEWLINE
               + (opt + (t.preflight + NEWLINE + (ExecLine(t, u) + NEWLINE + ""))))))) + t.suffix
  {
    hide ExecStart;
    var exec := ExecLine(t, u) + NEWLINE;
    var tail := t.preflight + NEWLINE + exec;
    assert Print(t, u) == Head(t, u.user) + Groups(t, u.user) + Anchor(t) + opt + tail + t.suffix by {
      assert t.preflight + NEWLINE + ExecStart(t, u.executable) + (if u.runtime then t.manifestArgument else "") + NEWLINE == tail;
    }
    Flatten(t.prefix, "User=" + u.user + NEWLINE, "Group=" + u.user + NEWLINE, t.supplementary + NEWLINE,
            t.environment + NEWLINE, opt, t.preflight + NEWLINE, exec, t.suffix);
    assert Head(t, u.user) == t.prefix + ("User=" + u.user + NEWLINE);
    assert Groups(t, u.user) == "Group=" + u.user + NEWLINE + (t.supplementary + NEWLINE);
  }

  lemma Flatten(p: string, a: string, b: string, c: string, d: string, o: string, e: string, f: string, s: string)
    ensures (p + a) + (b + c) + d + o + (e + f) + s == p + (a + (b + (c + (d + (o + (e + (f + ""))))))) + s
  {
    assert f + "" == f;
    var x := e + f;
    assert d + o + x == d + (o + x);
    assert c + (d + (o + x)) == c + d + o + x;
    assert b + (c + d + o + x) == b + c + d + o + x;
    assert (p + a) + (b + c) + d + o + x == p + (a + (b + c + d + o + x));
  }

  // ------------------------------------------------------------------- round trip

  lemma {:induction false} StartingAt(lines: seq<string>, k: nat, p: string)
    requires k < |lines| && p <= lines[k]
    requires forall i :: 0 <= i < |lines| && i != k ==> !(p <= lines[i])
    ensures Starting(lines, p) == [lines[k]]
  {
    if k == 0 {
      StartingNone(lines[1..], p);
    } else {
      StartingAt(lines[1..], k - 1, p);
    }
  }

  /** Among all the lines of a printed unit, one directive selects its one line of the body. */
  lemma Selects(before: seq<string>, body: seq<string>, after: seq<string>, k: nat, p: string)
    requires k < |body| && p <= body[k]
    requires forall i :: 0 <= i < |body| && i != k ==> !(p <= body[i])
    requires forall i :: 0 <= i < |before| ==> !(p <= before[i])
    requires forall i :: 0 <= i < |after| ==> !(p <= after[i])
    ensures Starting(before + body + after, p) == [body[k]]
  {
    StartingNone(before, p);
    StartingNone(after, p);
    StartingAt(body, k, p);
    StartingConcat(before + body, after, p);
    StartingConcat(before, body, p);
  }

  lemma SelectsNone(before: seq<string>, body: seq<string>, after: seq<string>, p: string)
    requires forall i :: 0 <= i < |body| ==> !(p <= body[i])
    requires forall i :: 0 <= i < |before| ==> !(p <= before[i])
    requires forall i :: 0 <= i < |after| ==> !(p <= after[i])
    ensures Starting(before + body + after, p) == []
  {
    StartingNone(before, p);
    StartingNone(after, p);
    StartingNone(body, p);
    StartingConcat(before + body, after, p);
    StartingConcat(before, body, p);
  }

  predicate SelectedEarly(t: Template, u: Unit, lines: seq<string>) {
    && Starting(lines, "User=") == ["User=" + u.user]
    && Starting(lines, "Group=") == ["Group=" + u.user]
    && Starting(lines, "SupplementaryGroups=") == [t.supplementary]
    && Starting(lines, "EnvironmentFile=") == [t.environment]
  }

  predicate SelectedLate(t: Template, u: Unit, lines: seq<string>) {
    && Starting(lines, "Environment=") == Optional(t, u)
    && Starting(lines, "ExecStartPre=") == [t.preflight]
    && Starting(lines, "ExecStart=") == [ExecLine(t, u)]
  }

  lemma BodyHead(t: Template, u: Unit)
    ensures |Body(t, u)| >= 4 && Body(t, u)[0] == "User=" + u.user && Body(t, u)[1] == "Group=" + u.user
    ensures Body(t, u)[2] == t.supplementary && Body(t, u)[3] == t.environment
  {
    hide ExecLine;
  }

  lemma SelectedFirst(t: Template, u: Unit, before: seq<string>, after: seq<string>)
    requires Canonical(t, before, after)
    ensures SelectedEarly(t, u, before + Body(t, u) + after)
  {
    hide ExecLine, Starting;
    var body := Body(t, u);
    BodyStarts(t, u, before, after);
    ForeignLines(t, before, after);
    hide Canonical;
    hide Body;
    BodyHead(t, u);
    Selects(before, body, after, 0, "User=");
    Selects(before, body, after, 1, "Group=");
    Selects(before, body, after, 2, "SupplementaryGroups=");
    Selects(before, body, after, 3, "EnvironmentFile=");
  }

  lemma SelectedLast(t: Template, u: Unit, before: seq<string>, after: seq<string>)
    requires Canonical(t, before, after)
    ensures SelectedLate(t, u, before + Body(t, u) + after)
  {
    hide ExecLine, Starting;
    var body := Body(t, u);
    var late := if u.bridge then 5 else 4;
    BodyStarts(t, u, before, after);
    ForeignLines(t, before, after);
    hide Canonical;
    if u.bridge { Selects(before, body, after, 4, "Environment="); } else { SelectsNone(before, body, after, "Environment="); }
    Selects(before, body, after, late, "ExecStartPre=");
    Selects(before, body, after, late + 1, "ExecStart=");
  }

  lemma ForeignLines(t: Template, before: seq<string>, after: seq<string>)
    requires Canonical(t, before, after)
    ensures Foreign(before) && Foreign(after)
  {
  }

  lemma {:induction false} AfterName(name: string, x: string)
    requires '=' !in name
    ensures AfterEquals(name + "=" + x) == x
    decreases |name|
  {
    var s := name + "=" + x;
    if name == "" {
      assert s[0] == '=' && s[1..] == x;
    } else {
      assert s[0] == name[0] && s[1..] == name[1..] + "=" + x;
      AfterName(name[1..], x);
    }
  }

  lemma {:induction false} WordEnds(a: string, b: string)
    requires NoSpace(a) && (b == "" || Space(b[0]))
    ensures Word(a + b) == |a|
    decreases |a|
  {
    if a == "" {
      assert a + b == b;
    } else {
      assert (a + b)[0] == a[0] && a[0] in a && (a + b)[1..] == a[1..] + b;
      assert forall c :: c in a[1..] ==> c in a;
      WordEnds(a[1..], b);
    }
  }

  lemma ExecMatches(t: Template, u: Unit, before: seq<string>, after: seq<string>)
    requires Canonical(t, before, after) && Good(u)
    ensures MatchExec(t, ExecLine(t, u)) == Some((u.executable, u.runtime))
  {
    hide Space, StartsOnly, Foreign, AllOneLine, Strip, Unlines;
    var tail := t.configArgument + (if u.runtime then t.manifestArgument else "");
    var line := ExecLine(t, u);
    assert line == "ExecStart=" + (u.executable + tail);
    assert "ExecStart=" <= line && line[10..] == u.executable + tail;
    assert tail[0] == t.configArgument[0];
    WordEnds(u.executable, tail);
    assert (u.executable + tail)[..|u.executable|] == u.executable && (u.executable + tail)[|u.executable|..] == tail;
  }

  lemma UserNamed(x: string)
    ensures AfterEquals("User=" + x) == x && AfterEquals("Group=" + x) == x
  {
    AfterName("User", x);
    AfterName("Group", x);
    assert "User" + "=" + x == "User=" + x && "Group" + "=" + x == "Group=" + x;
  }

  /** Every unit the parser can produce is recognized again from its print. */
  lemma ParsePrinted(t: Template, u: Unit, before: seq<string>, after: seq<string>)
    requires Canonical(t, before, after) && Good(u)
    ensures Parse(t, Print(t, u)) == Some(u)
  {
    var lines := before + Body(t, u) + after;
    PrintIsUnlines(t, u, before, after);
    BodyOneLine(t, u, before, after);
    AllOneLines(t, u, before, after);
    LinesOfUnlines(lines);
    SelectedFirst(t, u, before, after);
    SelectedLast(t, u, before, after);
    ExecMatches(t, u, before, after);
    UserNamed(u.user);
    PrintFramed(t, u);
    hide Lines, Starting, Print, MatchExec, AfterEquals, Strip, Canonical, Body, ExecLine, Unlines;
  }

  lemma AllOneLines(t: Template, u: Unit, before: seq<string>, after: seq<string>)
    requires Canonical(t, before, after) && AllOneLine(Body(t, u))
    ensures AllOneLine(before + Body(t, u) + after)
  {
    hide OneLine, StartsOnly, Body, Unlines;
  }

  lemma PrintFramed(t: Template, u: Unit)
    ensures var text := Print(t, u);
            t.prefix <= text && |t.suffix| <= |text| && text[|text| - |t.suffix|..] == t.suffix
  {
    PrintFlat(t, u, if u.bridge then t.driver + NEWLINE else "");
  }

  lemma {:induction false} StrippedLeft(s: string)
    ensures StripLeft(s) == "" || !Space(StripLeft(s)[0])
  {
    if s != "" && Space(s[0]) { StrippedLeft(s[1..]); }
  }

  lemma {:induction false} StrippedRight(s: string)
    ensures StripRight(s) == "" || !Space(StripRight(s)[|StripRight(s)| - 1])
    ensures StripRight(s) <= s
    decreases |s|
  {
    if s != "" && Space(s[|s| - 1]) { StrippedRight(s[..|s| - 1]); }
  }

  lemma StripTwice(s: string)
    ensures Strip(Strip(s)) == Strip(s)
  {
    StrippedLeft(s);
    StrippedRight(StripLeft(s));
  }

  /** What the parser returns is a unit it can be given again. */
  lemma ParsedIsGood(t: Template, text: string)
    requires Parse(t, text).Some?
    ensures Good(Parse(t, text).value)
  {
    ParsedIsPrinted(t, text);
    var lines := Lines(text);
    StripTwice(AfterEquals(Starting(lines, "User=")[0]));
    hide Lines, Starting, Print, AfterEquals, Strip, LineBreak, Space;
  }

  /** Parsing and printing are inverse: a text is recognized as a unit exactly when the unit
      is one the parser can produce and the text is its print. */
  lemma ParsesExactly(t: Template, text: string, u: Unit, before: seq<string>, after: seq<string>)
    requires Canonical(t, before, after)
    ensures Parse(t, text) == Some(u) <==> Good(u) && text == Print(t, u)
  {
    hide Parse, Print, Good, Canonical;
    if Parse(t, text).Some? {
      ParsedIsGood(t, text);
      ParsedIsPrinted(t, text);
    }
    if Good(u) { ParsePrinted(t, u, before, after); }
  }
}
