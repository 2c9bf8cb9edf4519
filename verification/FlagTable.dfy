/** The flags there are, and what each of them sets: as a table, and in both spellings. */
module FlagTable {
  import opened Options
  import opened SdkIdentity

  const LINTS :=
    {"-A", "-W", "-D", "-F", "--allow", "--warn", "--deny", "--forbid", "--cap-lints", "--force-warn"}

  const PLACES := {"-L", "-l", "--remap-path-prefix"}

  const OPTIONS_THAT_MATTER := {"target-cpu", "target-feature", "panic", "debug-assertions", "overflow-checks"}

  const OTHER_OPTIONS :=
    {"link-arg", "link-args", "linker", "debuginfo", "opt-level", "incremental", "codegen-units", "metadata",
     "extra-filename", "embed-bitcode", "strip"}

  /** An option's name, up to the first `=`. */
  ghost predicate IsNamed(value: string, name: string) {
    '=' !in name && (value == name || name + "=" <= value)
  }

  lemma NameMore(value: string)
    requires value != "" && value[0] != '='
    ensures NameOf(value) == [value[0]] + NameOf(value[1..]) && SettingOf(value) == SettingOf(value[1..])
  {}

  lemma {:induction false} NamePart(value: string)
    ensures IsNamed(value, NameOf(value))
    ensures SettingOf(value) == if '=' in value then value[|NameOf(value)| + 1..] else ""
    decreases |value|
  {
    NoEquals(value);
    if value != "" && value[0] != '=' {
      NamePart(value[1..]);
      NameMore(value);
      hide NameOf, SettingOf;
      assert value == [value[0]] + value[1..];
    }
  }

  lemma NoLonger(value: string, name: string, other: string)
    requires IsNamed(value, name) && IsNamed(value, other)
    ensures |other| <= |name|
  {
    assert value == name || value[|name|] == (name + "=")[|name|];
    assert value[..|other|] == other;
  }

  /** An option has one name. */
  lemma OneName(value: string, name: string)
    ensures IsNamed(value, name) <==> NameOf(value) == name
  {
    NamePart(value);
    var own := NameOf(value);
    if IsNamed(value, name) {
      assert value[..|own|] == own && value[..|name|] == name;
      NoLonger(value, own, name);
      NoLonger(value, name, own);
    }
  }

  // ── Spelling ────────────────────────────────────────────────────

  /** A flag of a word and a value: in two words, or in one. */
  predicate Spells(flag: seq<string>, word: string, value: string) {
    flag == [word, value] ||
    (flag == [if |word| == 2 then word + value else word + "=" + value] && (|word| == 2 ==> value != ""))
  }

  /** The flags there are. */
  predicate Exists(word: string, value: string) {
    || word in LINTS || word in PLACES || word == "--cfg" || word == "-Z"
    || (word == "-C" && NameOf(value) in OPTIONS_THAT_MATTER + OTHER_OPTIONS)
  }

  /** What they set. */
  function Means(word: string, value: string): seq<Setting> {
    if word == "--cfg" then [Cfg(value)]
    else if word == "-Z" then [Unstable(value)]
    else if word == "-C" && NameOf(value) in OPTIONS_THAT_MATTER then [Codegen(NameOf(value), SettingOf(value))]
    else []
  }

  lemma WordsAre(word: string)
    ensures IsLintWord(word) <==> word in LINTS
    ensures IsKindWord(word) <==> word in PLACES || word in {"--cfg", "-Z", "-C"}
    ensures IsLintWord(word) || IsKindWord(word) ==> (IsShort(word) <==> |word| == 2)
    ensures word in PLACES ==> word !in {"--cfg", "-Z", "-C"}
  {}

  lemma KeptExactly(word: string, value: string)
    requires IsKindWord(word)
    ensures KeptOf(word, value) != Unclassified <==> Exists(word, value)
  {
    WordsAre(word);
  }

  lemma TwoWords(word: string, value: string)
    ensures IsFlag([word, value]) <==> Exists(word, value)
    ensures IsFlag([word, value]) ==> Sets([word, value]) == Means(word, value)
  {
    WordsAre(word);
    if IsKindWord(word) { KeptExactly(word, value); KindIsNoLint(word); }
    hide IsLint, Joined, KeptOf, IsLintWord, IsKindWord;
  }

  function OneWord(word: string, value: string): string {
    if |word| == 2 then word + value else word + "=" + value
  }

  lemma JoinedReads(word: string, value: string)
    requires (word in LINTS || word in PLACES || word in {"--cfg", "-Z", "-C"}) && (|word| == 2 ==> value != "")
    ensures var arg := OneWord(word, value);
      && !IsLintWord(arg) && !IsKindWord(arg)
      && (IsLintWord(word) ==> IsLint(arg))
      && (IsKindWord(word) ==> !IsLint(arg) && Joined(arg) == Some((word, value)))
  {
    WordsAre(word);
    hide IsLint, Joined, IsLintWord, IsKindWord;
    if IsShort(word) { JoinedShort(word, value); }
    else if IsLintWord(word) { JoinedLongLint(word, value); }
    else { JoinedLongKind(word, value); }
    LongKinds(word);
  }

  lemma LongKinds(word: string)
    ensures IsLintWord(word) ==> !IsKindWord(word)
    ensures IsKindWord(word) && !IsShort(word) ==> word == "--cfg" || word == "--remap-path-prefix"
  {}

  lemma JoinedFlag(word: string, value: string)
    requires (word in LINTS || word in PLACES || word in {"--cfg", "-Z", "-C"}) && (|word| == 2 ==> value != "")
    ensures IsFlag([OneWord(word, value)]) <==> Exists(word, value)
    ensures IsFlag([OneWord(word, value)]) ==> Sets([OneWord(word, value)]) == Means(word, value)
  {
    JoinedReads(word, value);
    WordsAre(word);
    if IsKindWord(word) { KeptExactly(word, value); }
    hide IsLint, Joined, KeptOf, IsLintWord, IsKindWord, OneWord;
  }

  /** The word and the value of a flag in one word. */
  lemma LintParts(arg: string) returns (word: string, value: string)
    requires IsLint(arg) && !IsLintWord(arg)
    ensures word in LINTS && arg == OneWord(word, value) && (|word| == 2 ==> value != "")
  {
    assert |arg| == 2 ==> arg[..2] == arg;
    if StartsWith(arg, "--allow=") { word, value := LongLint(arg, "--allow"); }
    else if StartsWith(arg, "--warn=") { word, value := LongLint(arg, "--warn"); }
    else if StartsWith(arg, "--deny=") { word, value := LongLint(arg, "--deny"); }
    else if StartsWith(arg, "--forbid=") { word, value := LongLint(arg, "--forbid"); }
    else if StartsWith(arg, "--cap-lints=") { word, value := LongLint(arg, "--cap-lints"); }
    else if StartsWith(arg, "--force-warn=") { word, value := LongLint(arg, "--force-warn"); }
    else {
      word, value := arg[..2], arg[2..];
      assert arg == word + value;
    }
  }

  lemma LongLint(arg: string, lint: string) returns (word: string, value: string)
    requires StartsWith(arg, lint + "=") && |lint| > 2
    ensures word == lint && arg == OneWord(word, value)
  {
    word, value := lint, arg[|lint| + 1..];
    assert arg == arg[..|lint| + 1] + arg[|lint| + 1..];
  }

  lemma KindParts(arg: string)
    requires Joined(arg).Some? && !IsKindWord(arg)
    ensures var (word, value) := Joined(arg).value;
      (word in PLACES || word in {"--cfg", "-Z", "-C"}) && arg == OneWord(word, value) && (|word| == 2 ==> value != "")
  {
    var (word, value) := Joined(arg).value;
    assert |word| == 2 ==> arg == arg[..2] + arg[2..];
    assert |arg| == 2 ==> arg[..2] == arg;
    assert word == "--cfg" ==> arg == arg[..6] + arg[6..] && "--cfg=" == "--cfg" + "=";
    assert word == "--remap-path-prefix" ==>
      arg == arg[..20] + arg[20..] && "--remap-path-prefix=" == "--remap-path-prefix" + "=";
  }

  /** Some words are one flag exactly when they spell one of the table, and then set what it says. */
  lemma FlagsAreThese(flag: seq<string>)
    ensures IsFlag(flag) <==> exists word, value :: Spells(flag, word, value) && Exists(word, value)
    ensures IsFlag(flag) ==>
      forall word, value :: Spells(flag, word, value) && Exists(word, value) ==> Sets(flag) == Means(word, value)
  {
    hide Exists, Means, KeptOf;
    forall word, value | Spells(flag, word, value) && Exists(word, value)
      ensures IsFlag(flag) && Sets(flag) == Means(word, value)
    {
      FlagSpelled(flag, word, value);
    }
    if IsFlag(flag) { var word, value := FlagParts(flag); }
  }

  lemma FlagSpelled(flag: seq<string>, word: string, value: string)
    requires Spells(flag, word, value) && Exists(word, value)
    ensures IsFlag(flag) && Sets(flag) == Means(word, value)
  {
    TwoWords(word, value);
    if flag != [word, value] { JoinedIfSpelled(flag, word, value); }
    hide IsFlag, Sets, Means, Exists;
  }

  lemma JoinedIfSpelled(flag: seq<string>, word: string, value: string)
    requires Spells(flag, word, value) && Exists(word, value) && flag != [word, value]
    ensures IsFlag(flag) && Sets(flag) == Means(word, value)
  {
    JoinedFlag(word, value);
    hide IsFlag, Sets, Means;
  }

  lemma FlagParts(flag: seq<string>) returns (word: string, value: string)
    requires IsFlag(flag)
    ensures Spells(flag, word, value) && Exists(word, value)
  {
    if |flag| == 2 {
      word, value := flag[0], flag[1];
      assert flag == [word, value];
      TwoWords(word, value);
    } else {
      var arg := flag[0];
      assert flag == [arg];
      if IsLint(arg) {
        word, value := LintParts(arg);
      } else {
        KindParts(arg);
        var (w, v) := Joined(arg).value;
        word, value := w, v;
      }
      JoinedFlag(word, value);
    }
  }
}
