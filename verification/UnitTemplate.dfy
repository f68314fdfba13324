/** The installed unit template is canonical, so parsing, printing and patching behave on it
    as proved for canonical templates. */
module UnitTemplate {
  import opened Contracts
  import opened UnitMigration
  import opened UnitRoundTrip
  import opened UnitPatch

  /** Nothing in the line can begin the start directive or end the environment line. */
  predicate Quiet(line: string) {
    'x' !in line && (line != "" ==> line[|line| - 1] != 'v')
  }

  predicate Other(line: string) {
    OneLine(line) && StartsOnly(line, 7) && Quiet(line)
  }

  predicate AllOther(lines: seq<string>) {
    forall i :: 0 <= i < |lines| ==> Other(lines[i])
  }

  lemma OtherLine(line: string)
    requires OneLine(line) && Quiet(line)
    requires line == "" || (line[0] != 'U' && line[0] != 'G' && line[0] != 'E'
                            && (line[0] == 'S' ==> |line| > 1 && line[1] != 'u'))
    ensures Other(line)
  {
    StartChars(line);
  }

  lemma OtherPieces(a: string, b: string)
    requires OneLine(a) && OneLine(b) && a != "" && a[0] != 'U' && a[0] != 'G' && a[0] != 'E'
    requires a[0] == 'S' ==> |a| > 1 && a[1] != 'u'
    requires 'x' !in a && b != "" && Quiet(b)
    ensures Other(a + b)
  {
    assert Quiet(a + b);
    OneLineConcat(a, b);
    hide OneLine;
    OtherLine(a + b);
  }

  lemma UnitLines()
    ensures Other("[Unit]") && Other("") && Other("[Service]")
  {
    OtherLine("[Unit]");
    OtherLine("");
    OtherLine("[Service]");
  }

  lemma DescriptionLine()
    ensures Other("Description=" + "AstrumWeaver GPU Worker")
  {
    OtherPieces("Description=", "AstrumWeaver GPU Worker");
  }

  lemma WantsLine()
    ensures Other("Wants=" + "network-online.target")
  {
    OtherPieces("Wants=", "network-online.target");
  }

  lemma AfterLine()
    ensures Other("After=" + "network-online.target")
  {
    OtherPieces("After=", "network-online.target");
  }

  lemma TypeLine()
    ensures Other("Type=simple")
  {
    OtherLine("Type=simple");
  }

  lemma RestartLine()
    ensures Other("Restart=" + "on-failure")
  {
    OtherPieces("Restart=", "on-failure");
  }

  lemma RestartDelayLine()
    ensures Other("RestartSec=5s")
  {
    OtherLine("RestartSec=5s");
  }

  lemma RuntimeDirectoryLine()
    ensures Other("RuntimeDirectory=" + "astrumweaver-worker")
  {
    OtherPieces("RuntimeDirectory=", "astrumweaver-worker");
  }

  lemma RuntimeModeLine()
    ensures Other("RuntimeDirectoryMode=" + "0750")
  {
    OtherPieces("RuntimeDirectoryMode=", "0750");
  }

  lemma StateDirectoryLine()
    ensures Other("StateDirectory=" + "astrumweaver")
  {
    OtherPieces("StateDirectory=", "astrumweaver");
  }

  lemma StateModeLine()
    ensures Other("StateDirectoryMode=" + "0750")
  {
    OtherPieces("StateDirectoryMode=", "0750");
  }

  lemma PrivilegesLine()
    ensures Other("NoNewPrivileges=" + "yes")
  {
    OtherPieces("NoNewPrivileges=", "yes");
  }

  lemma PrivateLine()
    ensures Other("PrivateTmp=yes")
  {
    OtherLine("PrivateTmp=yes");
  }

  lemma ProtectSystemLine()
    ensures Other("ProtectSystem=" + "strict")
  {
    OtherPieces("ProtectSystem=", "strict");
  }

  lemma ProtectHomeLine()
    ensures Other("ProtectHome=yes")
  {
    OtherLine("ProtectHome=yes");
  }

  lemma TunablesLine()
    ensures Other("ProtectKernelTunables=" + "yes")
  {
    OtherPieces("ProtectKernelTunables=", "yes");
  }

  lemma ModulesLine()
    ensures Other("ProtectKernelModules=" + "yes")
  {
    OtherPieces("ProtectKernelModules=", "yes");
  }

  lemma ControlGroupsLine()
    ensures Other("ProtectControlGroups=" + "yes")
  {
    OtherPieces("ProtectControlGroups=", "yes");
  }

  lemma InstallLine()
    ensures Other("[Install]")
  {
    OtherLine("[Install]");
  }

  lemma WantedByLine()
    ensures Other("WantedBy=" + "multi-user.target")
  {
    OtherPieces("WantedBy=", "multi-user.target");
  }

  lemma FamiliesLine()
    ensures Other("RestrictAddressFamilies=" + "AF_UNIX AF_INET AF_INET6")
  {
    OtherPieces("RestrictAddressFamilies=", "AF_UNIX AF_INET AF_INET6");
  }

  lemma UnitSection()
    ensures AllOther(UNIT_SECTION) && AllOther(SERVICE_SECTION)
  {
    hide Other;
    UnitLines();
    DescriptionLine();
    WantsLine();
    AfterLine();
    TypeLine();
  }

  lemma ServiceDirectories()
    ensures AllOther(RESTARTING) && AllOther(KEEPING)
  {
    hide Other;
    RestartLine();
    RestartDelayLine();
    RuntimeDirectoryLine();
    RuntimeModeLine();
    StateDirectoryLine();
    StateModeLine();
  }

  lemma ServiceHardening()
    ensures AllOther(HARDENING) && AllOther(INSTALL_SECTION)
  {
    hide Other;
    PrivilegesLine();
    PrivateLine();
    ProtectSystemLine();
    ProtectHomeLine();
    InstallLine();
    WantedByLine();
  }

  lemma ServiceConfining()
    ensures AllOther(CONFINING)
  {
    hide Other;
    TunablesLine();
    ModulesLine();
    ControlGroupsLine();
    FamiliesLine();
    UnitLines();
  }

  lemma OtherConcat(a: seq<string>, b: seq<string>)
    requires AllOther(a) && AllOther(b)
    ensures AllOther(a + b)
  {
    hide Other;
  }

  lemma OthersAreForeign(lines: seq<string>)
    requires AllOther(lines)
    ensures AllOneLine(lines) && Foreign(lines)
  {
    hide OneLine, StartsOnly, Quiet;
  }

  lemma FixedParts()
    ensures AllOther(BEFORE) && AllOther(AFTER)
  {
    hide UNIT_SECTION, SERVICE_SECTION, RESTARTING, KEEPING, HARDENING, CONFINING, INSTALL_SECTION, AllOther;
    UnitSection();
    ServiceDirectories();
    ServiceHardening();
    ServiceConfining();
    OtherConcat(UNIT_SECTION, SERVICE_SECTION);
    OtherConcat(RESTARTING, KEEPING);
    OtherConcat(RESTARTING + KEEPING, HARDENING);
    OtherConcat(RESTARTING + KEEPING + HARDENING, CONFINING);
    OtherConcat(RESTARTING + KEEPING + HARDENING + CONFINING, INSTALL_SECTION);
  }

  lemma ThreePieces(a: string, b: string, c: string)
    requires OneLine(a) && OneLine(b) && OneLine(c)
    ensures OneLine(a + b + c)
  {
    hide LineBreak;
  }

  lemma SupplementaryStarts(x: string)
    ensures StartsOnly("SupplementaryGroups=" + x, 2) && OneLine("SupplementaryGroups=")
  {
    StartChars("SupplementaryGroups=" + x);
    assert "SupplementaryGroups=" <= "SupplementaryGroups=" + x;
  }

  lemma EnvironmentStarts(x: string)
    ensures StartsOnly("EnvironmentFile=" + x, 3) && OneLine("EnvironmentFile=")
  {
    StartChars("EnvironmentFile=" + x);
    assert "EnvironmentFile=" <= "EnvironmentFile=" + x;
  }

  lemma DriverStarts(x: string)
    ensures StartsOnly("Environment=" + x, 4) && OneLine("Environment=")
  {
    StartChars("Environment=" + x);
    assert "Environment=" <= "Environment=" + x;
  }

  lemma PreflightStarts(x: string)
    ensures StartsOnly("ExecStartPre=" + x, 5) && OneLine("ExecStartPre=")
  {
    StartChars("ExecStartPre=" + x);
    assert "ExecStartPre=" <= "ExecStartPre=" + x;
  }

  lemma SupplementaryLine()
    ensures OneLine(SUPPLEMENTARY) && StartsOnly(SUPPLEMENTARY, 2)
  {
    assert OneLine("astrumweaver-config");
    hide OneLine, StartsOnly;
    SupplementaryStarts("astrumweaver-config");
    OneLineConcat("SupplementaryGroups=", "astrumweaver-config");
  }

  lemma EnvironmentValue()
    ensures OneLine("-/etc/astrumweaver/worker.env")
  {
  }

  lemma EnvironmentLine()
    ensures OneLine(ENVIRONMENT) && StartsOnly(ENVIRONMENT, 3)
  {
    hide OneLine, StartsOnly;
    EnvironmentValue();
    EnvironmentStarts("-/etc/astrumweaver/worker.env");
    OneLineConcat("EnvironmentFile=", "-/etc/astrumweaver/worker.env");
  }

  predicate NoCapitalE(s: string) {
    forall i :: 0 <= i < |s| ==> s[i] != 'E'
  }

  lemma DriverPieces()
    ensures OneLine("LD_LIBRARY_PATH=") && OneLine("/etc/astrumweaver/runtime/") && OneLine("nvidia-driver")
  {
  }

  lemma DriverPlain()
    ensures NoCapitalE("LD_LIBRARY_PATH=") && NoCapitalE("/etc/astrumweaver/runtime/") && NoCapitalE("nvidia-driver")
  {
  }

  lemma PlainConcat(a: string, b: string, c: string)
    requires NoCapitalE(a) && NoCapitalE(b) && NoCapitalE(c)
    ensures NoCapitalE(a + b + c)
  {
  }

  lemma DriverLine()
    ensures OneLine(DRIVER) && StartsOnly(DRIVER, 4)
  {
    hide OneLine, StartsOnly;
    var x := "LD_LIBRARY_PATH=" + "/etc/astrumweaver/runtime/" + "nvidia-driver";
    DriverPieces();
    ThreePieces("LD_LIBRARY_PATH=", "/etc/astrumweaver/runtime/", "nvidia-driver");
    DriverStarts(x);
    OneLineConcat("Environment=", x);
  }

  lemma StartBegins(s: string, k: nat)
    requires Occurs(s, "ExecStart=", k)
    ensures s[k] == 'E' && s[k + 1] == 'x'
  {
    OccursAt(s, "ExecStart=", k);
    assert s[k] == "ExecStart="[0] && s[k + 1] == "ExecStart="[1];
  }

  lemma EnvironmentChars(x: string)
    requires NoCapitalE(x)
    ensures var s := "Environment=" + x; s[1] == 'n' && forall i :: 1 <= i < |s| ==> s[i] != 'E'
  {
    var s := "Environment=" + x;
    assert s[1] == "Environment="[1];
    forall i | 1 <= i < |s| ensures s[i] != 'E' {
      if i < 12 { assert s[i] == "Environment="[i]; } else { assert s[i] == x[i - 12]; }
    }
  }

  /** The start directive cannot occur in a line whose only capital E begins it. */
  lemma NoStartAfter(x: string)
    requires NoCapitalE(x)
    ensures Find("Environment=" + x, "ExecStart=").None?
  {
    var s := "Environment=" + x;
    EnvironmentChars(x);
    forall k: nat ensures !Occurs(s, "ExecStart=", k) {
      if Occurs(s, "ExecStart=", k) { StartBegins(s, k); }
    }
    FindIsFirst(s, "ExecStart=");
  }

  lemma NoStartInDriver()
    ensures Find(DRIVER, "ExecStart=").None?
  {
    hide NoCapitalE, Find;
    DriverPlain();
    PlainConcat("LD_LIBRARY_PATH=", "/etc/astrumweaver/runtime/", "nvidia-driver");
    NoStartAfter("LD_LIBRARY_PATH=" + "/etc/astrumweaver/runtime/" + "nvidia-driver");
  }

  lemma PreflightPieces()
    ensures OneLine("+/usr/local/libexec/") && OneLine("/etc/astrumweaver/gpu-uuids")
  {
  }

  lemma PreflightCommand()
    ensures OneLine("astrumweaver/gpu-preflight ")
  {
  }

  lemma PreflightLine()
    ensures OneLine(PREFLIGHT) && StartsOnly(PREFLIGHT, 5)
  {
    hide OneLine, StartsOnly;
    var x := "+/usr/local/libexec/" + "astrumweaver/gpu-preflight " + "/etc/astrumweaver/gpu-uuids";
    PreflightPieces();
    PreflightCommand();
    ThreePieces("+/usr/local/libexec/", "astrumweaver/gpu-preflight ", "/etc/astrumweaver/gpu-uuids");
    PreflightStarts(x);
    OneLineConcat("ExecStartPre=", x);
  }

  lemma ConfigPieces()
    ensures OneLine(" --config ") && OneLine("/etc/astrumweaver/worker.toml")
  {
  }

  lemma ManifestOption()
    ensures OneLine(" --runtime-manifest ")
  {
  }

  lemma ManifestPieces()
    ensures OneLine("/etc/astrumweaver/") && OneLine("runtime-deployment.json")
  {
  }

  lemma Arguments()
    ensures OneLine(CONFIG_ARGUMENT) && CONFIG_ARGUMENT != "" && Space(CONFIG_ARGUMENT[0])
    ensures OneLine(MANIFEST_ARGUMENT) && MANIFEST_ARGUMENT != ""
  {
    hide OneLine;
    ConfigPieces();
    ManifestOption();
    ManifestPieces();
    OneLineConcat(" --config ", "/etc/astrumweaver/worker.toml");
    ThreePieces(" --runtime-manifest ", "/etc/astrumweaver/", "runtime-deployment.json");
  }

  /** The installed template is canonical, so everything above holds of it. */
  lemma InstalledTemplate()
    ensures Canonical(CANONICAL, BEFORE, AFTER) && CANONICAL.Valid()
  {
    hide BEFORE, AFTER, SUPPLEMENTARY, ENVIRONMENT, DRIVER, PREFLIGHT, CONFIG_ARGUMENT, MANIFEST_ARGUMENT;
    hide OneLine, StartsOnly, Foreign, AllOneLine, Unlines, Find, Space;
    FixedParts();
    OthersAreForeign(BEFORE);
    OthersAreForeign(AFTER);
    SupplementaryLine();
    EnvironmentLine();
    DriverLine();
    NoStartInDriver();
    PreflightLine();
    Arguments();
    CanonicalIsValid(CANONICAL, BEFORE, AFTER);
  }

  /** An installed unit text is recognized exactly when it is the print of a unit the parser
      can produce. */
  lemma InstalledUnitsParse(text: string, u: Unit)
    ensures Parse(CANONICAL, text) == Some(u) <==> Good(u) && text == Print(CANONICAL, u)
  {
    hide CANONICAL, Canonical, Parse, Print, Good;
    InstalledTemplate();
    ParsesExactly(CANONICAL, text, u, BEFORE, AFTER);
  }

  /** An installed unit is patched exactly when it needs no patch or its environment line,
      and for a smoke unit its start line, occurs once; the result is then the same unit in
      runtime mode with the driver bridge. */
  lemma InstalledUnitsRender(text: string)
    requires Parse(CANONICAL, text).Some?
    ensures var u := Parse(CANONICAL, text).value;
            && (Render(CANONICAL, text).Some? <==>
                  (u.runtime && u.bridge)
                  || (Count(text, Anchor(CANONICAL)) == 1
                      && (u.runtime || Count(text, ExecStart(CANONICAL, u.executable)) == 1)))
            && (Render(CANONICAL, text).Some? ==>
                  Render(CANONICAL, text).value == Print(CANONICAL, u.(runtime := true, bridge := true)))
  {
    hide CANONICAL, Canonical, Parse, Print, Render, Count;
    InstalledTemplate();
    RendersExactly(CANONICAL, text, BEFORE, AFTER);
    if Render(CANONICAL, text).Some? { RenderIsRecordUpdate(CANONICAL, text); }
  }
}
