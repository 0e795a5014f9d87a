/**
 * Startup dependency checks (src/superwhisper/deps.py): which missing
 * programs and libraries are reported, and the de-duplicated pacman
 * package list of the combined install line.
 *
 * `shutil.which` is an oracle (`onPath`); the GTK/AppIndicator import is
 * reduced to the text of the error it raises, the libnotify import to
 * whether it fails.
 */
module Deps {
  import opened Wrappers
  import opened Strings

  /** `MissingDep` */
  datatype MissingDep = MissingDep(name: string, installCmd: string, description: string)

  /** A required command, the pacman package providing it, and what it is for. */
  datatype Required = Required(command: string, package: string, purpose: string)

  /** The commands `check_all` looks for, in order. */
  const Commands: seq<Required> := [
    Required("wl-copy", "wl-clipboard", "clipboard support"),
    Required("wtype", "wtype", "typing text into windows")
  ]

  const PacmanInstall: string := "sudo pacman -S "

  const AppIndicatorDep := MissingDep("AppIndicator3", PacmanInstall + "libappindicator-gtk3", "system tray icon")
  const GtkDep := MissingDep("GTK3", PacmanInstall + "gtk3", "GUI toolkit")
  const LibnotifyDep := MissingDep("libnotify", PacmanInstall + "libnotify", "desktop notifications")

  /** The entries for the commands not on the path, in order. */
  function CommandDeps(commands: seq<Required>, onPath: string -> bool): (r: seq<MissingDep>)
    ensures |r| <= |commands|
    decreases |commands|
  {
    if |commands| == 0 then []
    else
      var n := |commands| - 1;
      var c := commands[n];
      CommandDeps(commands[..n], onPath)
        + (if onPath(c.command) then [] else [MissingDep(c.command, PacmanInstall + c.package, c.purpose)])
  }

  /** The classification of the GTK/AppIndicator import error: AppIndicator3 wins over GTK3. */
  function GuiDeps(guiError: Option<string>): (r: seq<MissingDep>)
    ensures guiError.None? ==> r == []
    ensures guiError.Some? && Contains(guiError.value, "AppIndicator3") ==> r == [AppIndicatorDep]
    ensures guiError.Some? && !Contains(guiError.value, "AppIndicator3") && Contains(guiError.value, "Gtk") ==> r == [GtkDep]
    ensures guiError.Some? && !Contains(guiError.value, "AppIndicator3") && !Contains(guiError.value, "Gtk") ==> r == []
  {
    match guiError
    case None => []
    case Some(e) =>
      if Contains(e, "AppIndicator3") then [AppIndicatorDep]
      else if Contains(e, "Gtk") then [GtkDep]
      else []
  }

  /**
   * `check_all`: commands first, then GTK/AppIndicator, then libnotify.
   * `guiError` is the text of the GTK/AppIndicator import error, if any;
   * `notifyFails` whether importing libnotify fails.
   */
  method CheckAll(onPath: string -> bool, guiError: Option<string>, notifyFails: bool) returns (missing: seq<MissingDep>)
    ensures missing == CommandDeps(Commands, onPath) + GuiDeps(guiError) + (if notifyFails then [LibnotifyDep] else [])
  {
    missing := [];
    for i := 0 to |Commands|
      invariant missing == CommandDeps(Commands[..i], onPath)
    {
      assert Commands[..i + 1][..i] == Commands[..i];
      var c := Commands[i];
      if !onPath(c.command) {
        missing := missing + [MissingDep(c.command, PacmanInstall + c.package, c.purpose)];
      }
    }
    assert Commands[..|Commands|] == Commands;
    if guiError.Some? {
      var e := guiError.value;
      if Contains(e, "AppIndicator3") {
        missing := missing + [AppIndicatorDep];
      } else if Contains(e, "Gtk") {
        missing := missing + [GtkDep];
      }
    }
    if notifyFails {
      missing := missing + [LibnotifyDep];
    }
  }

  /** Every command entry names a listed command, carries its package's install line, and appears exactly when the command is missing. */
  lemma {:induction false} CommandDepsShape(commands: seq<Required>, onPath: string -> bool)
    ensures forall d :: d in CommandDeps(commands, onPath) ==>
              exists c :: c in commands && !onPath(c.command) && d == MissingDep(c.command, PacmanInstall + c.package, c.purpose)
    ensures forall d :: d in CommandDeps(commands, onPath) ==> StartsWith(d.installCmd, PacmanInstall)
    ensures forall c :: c in commands && !onPath(c.command) ==> MissingDep(c.command, PacmanInstall + c.package, c.purpose) in CommandDeps(commands, onPath)
    decreases |commands|
  {
    if |commands| > 0 {
      var n := |commands| - 1;
      CommandDepsShape(commands[..n], onPath);
      forall c | c in commands && !onPath(c.command)
        ensures MissingDep(c.command, PacmanInstall + c.package, c.purpose) in CommandDeps(commands, onPath)
      {
        if c != commands[n] {
          var k :| 0 <= k < |commands| && commands[k] == c;
          assert commands[..n][k] == c;
        }
      }
      forall d | d in CommandDeps(commands, onPath)
        ensures StartsWith(d.installCmd, PacmanInstall)
      {
        var c :| c in commands && !onPath(c.command) && d == MissingDep(c.command, PacmanInstall + c.package, c.purpose);
        assert d.installCmd[..|PacmanInstall|] == PacmanInstall;
      }
    }
  }

  /** The libnotify entry is reported exactly when its import fails; the GUI probe adds it never. */
  lemma LibnotifyOnlyFromItsProbe(onPath: string -> bool, guiError: Option<string>, notifyFails: bool)
    ensures (LibnotifyDep in CommandDeps(Commands, onPath) + GuiDeps(guiError) + (if notifyFails then [LibnotifyDep] else [])) <==> notifyFails
  {
    CommandDepsShape(Commands, onPath);
    assert forall c :: c in Commands ==> c.command != LibnotifyDep.name;
    assert LibnotifyDep !in CommandDeps(Commands, onPath);
    assert LibnotifyDep.name != AppIndicatorDep.name && LibnotifyDep.name != GtkDep.name;
  }

  /** Every reported entry is a pacman install line. */
  lemma AllPacman(onPath: string -> bool, guiError: Option<string>, notifyFails: bool)
    ensures forall d :: d in CommandDeps(Commands, onPath) + GuiDeps(guiError) + (if notifyFails then [LibnotifyDep] else []) ==>
              StartsWith(d.installCmd, PacmanInstall)
  {
    CommandDepsShape(Commands, onPath);
    assert AppIndicatorDep.installCmd[..|PacmanInstall|] == PacmanInstall;
    assert GtkDep.installCmd[..|PacmanInstall|] == PacmanInstall;
    assert LibnotifyDep.installCmd[..|PacmanInstall|] == PacmanInstall;
  }

  /** The commands' entries in the order wl-copy, wtype, each present exactly when the command is not found. */
  lemma CommandOrder(onPath: string -> bool)
    ensures CommandDeps(Commands, onPath) ==
      (if onPath("wl-copy") then [] else [MissingDep("wl-copy", PacmanInstall + "wl-clipboard", "clipboard support")])
      + (if onPath("wtype") then [] else [MissingDep("wtype", PacmanInstall + "wtype", "typing text into windows")])
  {
    assert Commands[..1] == [Commands[0]];
    assert Commands[..1][..0] == [];
  }

  /** The package an install command names: its last whitespace-separated word. */
  function PackageOf(installCmd: string): (p: string)
    requires StartsWith(installCmd, "sudo pacman")
    ensures IsLastWord(installCmd, p)
  {
    assert !IsSpace(installCmd[0]) by {
      assert installCmd[0] == installCmd[..11][0] == 's';
    }
    LastWord(installCmd)
  }

  /** The package of a pacman install line built from a package name is that name. */
  lemma PackageOfInstallLine(package: string)
    requires package != [] && NoSpace(package)
    ensures StartsWith(PacmanInstall + package, "sudo pacman")
    ensures PackageOf(PacmanInstall + package) == package
  {
    var s := PacmanInstall + package;
    assert s[..11] == "sudo pacman";
    LastWordOfAppend(PacmanInstall, package);
  }

  /** The packages the combined line installs, with repeats, in the order of `missing`. */
  function PacmanWords(missing: seq<MissingDep>): seq<string>
    decreases |missing|
  {
    if |missing| == 0 then []
    else
      var n := |missing| - 1;
      var cmd := missing[n].installCmd;
      PacmanWords(missing[..n]) + (if StartsWith(cmd, "sudo pacman") then [PackageOf(cmd)] else [])
  }

  /** The words in first-occurrence order, each once. */
  function Dedup(words: seq<string>): seq<string>
    decreases |words|
  {
    if |words| == 0 then []
    else
      var n := |words| - 1;
      var d := Dedup(words[..n]);
      if words[n] in d then d else d + [words[n]]
  }

  predicate NoDuplicates(s: seq<string>) {
    forall i, j :: 0 <= i < j < |s| ==> s[i] != s[j]
  }

  /** De-duplication keeps exactly the words present, each once. */
  lemma {:induction false} DedupCorrect(words: seq<string>)
    ensures NoDuplicates(Dedup(words))
    ensures forall w :: w in Dedup(words) <==> w in words
    decreases |words|
  {
    if |words| > 0 {
      var n := |words| - 1;
      DedupCorrect(words[..n]);
      assert words == words[..n] + [words[n]];
    }
  }

  /** Adding words only adds to the end: what was de-duplicated before stays in front and in order. */
  lemma {:induction false} DedupPrefix(words: seq<string>, more: seq<string>)
    ensures Dedup(words) <= Dedup(words + more)
    decreases |more|
  {
    if |more| > 0 {
      var n := |more| - 1;
      assert (words + more)[..|words + more| - 1] == words + more[..n];
      DedupPrefix(words, more[..n]);
    } else {
      assert words + more == words;
    }
  }

  /** A list without repeats is left as it is. */
  lemma {:induction false} DedupOfDistinct(words: seq<string>)
    requires NoDuplicates(words)
    ensures Dedup(words) == words
    decreases |words|
  {
    if |words| > 0 {
      var n := |words| - 1;
      DedupOfDistinct(words[..n]);
      assert words[n] !in words[..n];
    }
  }

  /** `print_missing`'s package collection loop. */
  method PacmanPackages(missing: seq<MissingDep>) returns (packages: seq<string>)
    ensures packages == Dedup(PacmanWords(missing))
    ensures NoDuplicates(packages)
    ensures forall i :: 0 <= i < |missing| && StartsWith(missing[i].installCmd, "sudo pacman") ==> PackageOf(missing[i].installCmd) in packages
  {
    packages := [];
    for i := 0 to |missing|
      invariant packages == Dedup(PacmanWords(missing[..i]))
    {
      assert missing[..i + 1][..i] == missing[..i];
      var cmd := missing[i].installCmd;
      var before := PacmanWords(missing[..i]);
      if StartsWith(cmd, "sudo pacman") {
        var package := PackageOf(cmd);
        assert PacmanWords(missing[..i + 1]) == before + [package];
        assert (before + [package])[..|before|] == before;
        if package !in packages {
          packages := packages + [package];
        }
      } else {
        assert PacmanWords(missing[..i + 1]) == before + [];
        assert before + [] == before;
      }
    }
    assert missing[..|missing|] == missing;
    DedupCorrect(PacmanWords(missing));
    PacmanWordsCover(missing);
  }

  lemma PacmanWordsCover(missing: seq<MissingDep>)
    ensures forall i :: 0 <= i < |missing| && StartsWith(missing[i].installCmd, "sudo pacman") ==> PackageOf(missing[i].installCmd) in PacmanWords(missing)
  {
    forall i | 0 <= i < |missing| && StartsWith(missing[i].installCmd, "sudo pacman")
      ensures PackageOf(missing[i].installCmd) in PacmanWords(missing)
    {
      PacmanWordIn(missing, i);
    }
  }

  /** The package of one pacman install line is among the words. */
  lemma {:induction false} PacmanWordIn(missing: seq<MissingDep>, i: nat)
    requires i < |missing| && StartsWith(missing[i].installCmd, "sudo pacman")
    ensures PackageOf(missing[i].installCmd) in PacmanWords(missing)
    decreases |missing|
  {
    var n := |missing| - 1;
    var cmd := missing[n].installCmd;
    var prefix := PacmanWords(missing[..n]);
    if i < n {
      assert missing[..n][i] == missing[i];
      PacmanWordIn(missing[..n], i);
      InAppend(PackageOf(missing[i].installCmd), prefix, if StartsWith(cmd, "sudo pacman") then [PackageOf(cmd)] else []);
    } else {
      assert PacmanWords(missing) == prefix + [PackageOf(cmd)];
    }
  }

  lemma InAppend(w: string, a: seq<string>, b: seq<string>)
    requires w in a
    ensures w in a + b
  {
  }

  /** Only pacman install lines contribute, and each its own package. */
  lemma {:induction false} PacmanWordsFrom(missing: seq<MissingDep>)
    ensures forall w :: w in PacmanWords(missing) ==>
              exists i :: 0 <= i < |missing| && StartsWith(missing[i].installCmd, "sudo pacman") && w == PackageOf(missing[i].installCmd)
    decreases |missing|
  {
    if |missing| > 0 {
      var n := |missing| - 1;
      PacmanWordsFrom(missing[..n]);
      forall w | w in PacmanWords(missing[..n])
        ensures exists i :: 0 <= i < |missing| && StartsWith(missing[i].installCmd, "sudo pacman") && w == PackageOf(missing[i].installCmd)
      {
        var i :| 0 <= i < n && StartsWith(missing[..n][i].installCmd, "sudo pacman") && w == PackageOf(missing[..n][i].installCmd);
        assert missing[..n][i] == missing[i];
      }
    }
  }

  /** The combined install line, printed only when some package is to be installed. */
  function InstallAllLine(packages: seq<string>): (line: Option<string>)
    ensures line.None? <==> packages == []
    ensures line.Some? ==> StartsWith(line.value, "  sudo pacman -S ")
    ensures line.Some? && (forall k :: 0 <= k < |packages| ==> ' ' !in packages[k]) ==>
              Split(line.value[17..], ' ') == packages
  {
    if packages == [] then None
    else
      var l := "  sudo pacman -S " + Join(packages, " ");
      assert l[..17] == "  sudo pacman -S ";
      assert l[17..] == Join(packages, " ");
      if forall k :: 0 <= k < |packages| ==> ' ' !in packages[k] then
        SplitJoin(packages, ' ');
        Some(l)
      else
        Some(l)
  }

  /** A repeated package keeps the place of its first occurrence. */
  lemma DedupKeepsFirstPlace(x: string, y: string)
    requires x != y
    ensures Dedup([x, y, x]) == [x, y]
  {
    assert [x][..0] == [];
    assert Dedup([x]) == [x];
    assert [x, y][..1] == [x];
    assert Dedup([x, y]) == [x, y];
    assert [x, y, x][..2] == [x, y];
  }
}
