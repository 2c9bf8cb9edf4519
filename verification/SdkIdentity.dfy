/** What an SDK build is identified by: the compiler flags that matter, and the locked packages
    it is made of. */
module SdkIdentity {
  import opened Options
  import opened Sorting

  // ── Flags ───────────────────────────────────────────────────────

  predicate StartsWith(s: string, prefix: string) {
    |prefix| <= |s| && s[..|prefix|] == prefix
  }

  /** A lint's word, its value the next one. */
  predicate IsLintWord(arg: string) {
    arg in {"-A", "-W", "-D", "-F", "--allow", "--warn", "--deny", "--forbid", "--cap-lints", "--force-warn"}
  }

  predicate IsLint(arg: string) {
    || StartsWith(arg, "-A") || StartsWith(arg, "-W") || StartsWith(arg, "-D") || StartsWith(arg, "-F")
    || StartsWith(arg, "--allow=") || StartsWith(arg, "--warn=") || StartsWith(arg, "--deny=") ||
      StartsWith(arg, "--forbid=")
    || StartsWith(arg, "--cap-lints=") || StartsWith(arg, "--force-warn=")
  }

  predicate IsKindWord(arg: string) {
    arg in {"-C", "--cfg", "-Z", "-L", "-l", "--remap-path-prefix"}
  }

  /** The kind and value of a flag in one word. */
  function Joined(arg: string): Option<(string, string)> {
    if StartsWith(arg, "-C") then Some(("-C", arg[2..]))
    else if StartsWith(arg, "-Z") then Some(("-Z", arg[2..]))
    else if StartsWith(arg, "--cfg=") then Some(("--cfg", arg[6..]))
    else if StartsWith(arg, "--remap-path-prefix=") then Some(("--remap-path-prefix", arg[20..]))
    else if StartsWith(arg, "-L") then Some(("-L", arg[2..]))
    else if StartsWith(arg, "-l") then Some(("-l", arg[2..]))
    else None
  }

  /** The index of the first `=`, the length when there is none. */
  function EqualsAt(s: string): (n: nat)
    ensures n <= |s|
  {
    if s == "" || s[0] == '=' then 0 else 1 + EqualsAt(s[1..])
  }

  /** Options of code generation that matter. */
  predicate Matters(name: string) {
    name in {"target-cpu", "target-feature", "panic", "debug-assertions", "overflow-checks"}
  }

  /** The name of an option, and what it is set to: nothing when it is only named. */
  function NameOf(value: string): string {
    value[..EqualsAt(value)]
  }

  function SettingOf(value: string): string {
    if EqualsAt(value) < |value| then value[EqualsAt(value) + 1..] else ""
  }

  /** What is kept of a flag: its text, nothing, or a panic for one not classified. */
  datatype Kept = Text(text: string) | Nothing | Unclassified

  function KeptOf(kind: string, value: string): Kept {
    if kind == "--cfg" || kind == "-Z" then Text(kind + value)
    else if kind == "-C" then
      var name := NameOf(value);
      if Matters(name) then Text("-C" + name + "=" + SettingOf(value))
      else if name in {"link-arg", "link-args", "linker", "debuginfo", "opt-level", "incremental", "codegen-units",
                       "metadata", "extra-filename", "embed-bitcode", "strip"} then Nothing
      else Unclassified
    else Nothing
  }

  /** The first flag of some arguments: how many words it takes, and what is kept of it. */
  datatype First = First(words: nat, kept: Kept)

  function FirstFlag(args: seq<string>): (f: First)
    requires args != []
    ensures f.kept != Unclassified ==> 1 <= f.words <= 2 && f.words <= |args|
  {
    var arg := args[0];
    if IsLintWord(arg) then (if |args| >= 2 then First(2, Nothing) else First(0, Unclassified))
    else if IsLint(arg) then First(1, Nothing)
    else if IsKindWord(arg) then (if |args| >= 2 then First(2, KeptOf(arg, args[1])) else First(0, Unclassified))
    else if Joined(arg).Some? then First(1, KeptOf(Joined(arg).value.0, Joined(arg).value.1))
    else First(0, Unclassified)
  }

  function TextsOf(k: Kept): seq<string> {
    if k.Text? then [k.text] else []
  }

  /** What is kept of all the flags, in their order; none for one not classified. */
  function KeptAll(args: seq<string>): Option<seq<string>>
    decreases |args|
  {
    if args == [] then Some([])
    else
      var f := FirstFlag(args);
      if f.kept.Unclassified? then None
      else
        var rest := KeptAll(args[f.words..]);
        if rest.None? then None else Some(TextsOf(f.kept) + rest.value)
  }

  /** The canonical flags. */
  function Canonical(args: seq<string>): Option<seq<string>> {
    var kept := KeptAll(args);
    if kept.None? then None else Some(Sort(kept.value))
  }

  // ── Whole flags ─────────────────────────────────────────────────

  /** One flag, in one word or two. */
  predicate IsFlag(flag: seq<string>) {
    flag != [] && FirstFlag(flag).kept != Unclassified && FirstFlag(flag).words == |flag|
  }

  function Words(flags: seq<seq<string>>): seq<string> {
    if flags == [] then [] else flags[0] + Words(flags[1..])
  }

  predicate AllFlags(flags: seq<seq<string>>) {
    forall i :: 0 <= i < |flags| ==> IsFlag(flags[i])
  }

  function Texts(flags: seq<seq<string>>): seq<string>
    requires AllFlags(flags)
  {
    if flags == [] then []
    else
      assert IsFlag(flags[0]);
      TextsOf(FirstFlag(flags[0]).kept) + Texts(flags[1..])
  }

  /** What follows a flag does not change it. */
  lemma FlagFirst(flag: seq<string>, rest: seq<string>)
    requires IsFlag(flag)
    ensures FirstFlag(flag + rest) == FirstFlag(flag) && (flag + rest)[|flag|..] == rest
  {
    assert (flag + rest)[0] == flag[0];
    if |flag| >= 2 { assert (flag + rest)[1] == flag[1]; }
  }

  /** Arguments made of whole flags keep what each keeps. */
  lemma {:induction false} WholeFlags(flags: seq<seq<string>>)
    requires AllFlags(flags)
    ensures KeptAll(Words(flags)) == Some(Texts(flags))
    decreases |flags|
  {
    if flags != [] {
      WholeFlags(flags[1..]);
      FlagFirst(flags[0], Words(flags[1..]));
    }
  }

  /** The first flag's own words say all of it. */
  lemma FirstAlone(args: seq<string>)
    requires args != [] && FirstFlag(args).kept != Unclassified
    ensures IsFlag(args[..FirstFlag(args).words])
  {
    hide IsLint, IsLintWord, IsKindWord, Joined, KeptOf;
    var n := FirstFlag(args).words;
    assert args[..n][0] == args[0] && (n == 2 ==> args[..n][1] == args[1]);
  }

  /** Arguments cut into whole flags; none when one is not classified. */
  function Cut(args: seq<string>): Option<seq<seq<string>>>
    decreases |args|
  {
    if args == [] then Some([])
    else
      var f := FirstFlag(args);
      if f.kept.Unclassified? then None
      else
        var rest := Cut(args[f.words..]);
        if rest.None? then None else Some([args[..f.words]] + rest.value)
  }

  lemma {:induction false} CutIsWhole(args: seq<string>)
    ensures Cut(args).Some? <==> KeptAll(args).Some?
    ensures Cut(args).Some? ==> AllFlags(Cut(args).value) && Words(Cut(args).value) == args
    decreases |args|
  {
    hide IsFlag;
    if args != [] && !FirstFlag(args).kept.Unclassified? {
      var n := FirstFlag(args).words;
      CutIsWhole(args[n..]);
      FirstAlone(args);
      hide FirstFlag;
      if Cut(args).Some? {
        var flags := Cut(args).value;
        assert flags[1..] == Cut(args[n..]).value && args == flags[0] + args[n..];
      }
    }
  }

  lemma {:induction false} WholeIsCut(flags: seq<seq<string>>)
    requires AllFlags(flags)
    ensures Cut(Words(flags)) == Some(flags)
    decreases |flags|
  {
    if flags != [] {
      var rest := Words(flags[1..]);
      assert IsFlag(flags[0]);
      WholeIsCut(flags[1..]);
      FlagFirst(flags[0], rest);
      hide FirstFlag;
      assert (flags[0] + rest)[..|flags[0]|] == flags[0];
      assert flags == [flags[0]] + flags[1..];
    }
  }

  /** Arguments are canonical exactly when they are whole flags, and then in one way. */
  lemma FlagsExactly(args: seq<string>)
    ensures Canonical(args).Some? <==> exists flags :: AllFlags(flags) && Words(flags) == args
    ensures forall flags :: AllFlags(flags) && Words(flags) == args ==> Cut(args) == Some(flags)
  {
    CutIsWhole(args);
    forall flags | AllFlags(flags) && Words(flags) == args ensures Cut(args) == Some(flags) { WholeIsCut(flags); }
    hide AllFlags, Words, KeptAll, Cut;
  }

  /** The flags that say something, each as what it says. */
  function Says(flag: seq<string>): multiset<string>
    requires IsFlag(flag)
  {
    multiset(TextsOf(FirstFlag(flag).kept))
  }

  lemma FirstTexts(flags: seq<seq<string>>)
    requires AllFlags(flags) && flags != []
    ensures IsFlag(flags[0]) && AllFlags(flags[1..])
    ensures multiset(Texts(flags)) == Says(flags[0]) + multiset(Texts(flags[1..]))
  {
    hide IsFlag, FirstFlag;
  }

  lemma {:induction false} TextsSum(flags: seq<seq<string>>, i: nat)
    requires AllFlags(flags) && i < |flags|
    ensures AllFlags(flags[..i] + flags[i + 1..])
    ensures multiset(Texts(flags)) == Says(flags[i]) + multiset(Texts(flags[..i] + flags[i + 1..]))
    decreases |flags|
  {
    hide IsFlag, Texts, Says;
    var others := flags[..i] + flags[i + 1..];
    FirstTexts(flags);
    if i == 0 {
      assert others == flags[1..];
    } else {
      TextsSum(flags[1..], i - 1);
      assert others[0] == flags[0] && others[1..] == flags[1..][..i - 1] + flags[1..][i..];
      FirstTexts(others);
    }
  }

  lemma SameFlags(flags: seq<seq<string>>, others: seq<seq<string>>)
    requires AllFlags(flags) && multiset(flags) == multiset(others)
    ensures AllFlags(others)
  {
    forall i | 0 <= i < |others| ensures IsFlag(others[i]) {
      assert others[i] in multiset(others);
      assert others[i] in flags;
    }
  }

  /** Reordering whole flags changes nothing. */
  lemma {:induction false} ReorderedTexts(flags: seq<seq<string>>, others: seq<seq<string>>)
    requires AllFlags(flags) && AllFlags(others) && multiset(flags) == multiset(others)
    ensures multiset(Texts(flags)) == multiset(Texts(others))
    decreases |flags|
  {
    hide IsFlag, FirstFlag;
    if flags == [] {
      assert |multiset(others)| == 0;
    } else {
      var i := FirstIn(flags, others);
      TextsSum(others, i);
      TextsSum(flags, 0);
      assert flags[..0] + flags[0 + 1..] == flags[1..];
      ReorderedTexts(flags[1..], others[..i] + others[i + 1..]);
    }
  }

  lemma ReorderingChangesNothing(flags: seq<seq<string>>, others: seq<seq<string>>)
    requires AllFlags(flags) && multiset(flags) == multiset(others)
    ensures Canonical(Words(others)) == Canonical(Words(flags)) && Canonical(Words(flags)).Some?
  {
    SameFlags(flags, others);
    ReorderedTexts(flags, others);
    WholeFlags(flags);
    WholeFlags(others);
    SortsAlike(Texts(flags), Texts(others));
  }

  /** A flag that says nothing: of a lint, of linking or of paths, or of code generation that does
      not matter. */
  predicate SaysNothing(flag: seq<string>) {
    IsFlag(flag) && FirstFlag(flag).kept == Nothing
  }

  /** Inserting or removing a flag that says nothing changes nothing. */
  lemma SilentFlagChangesNothing(flags: seq<seq<string>>, i: nat)
    requires AllFlags(flags) && i < |flags| && SaysNothing(flags[i])
    ensures Canonical(Words(flags[..i] + flags[i + 1..])) == Canonical(Words(flags))
  {
    TextsSum(flags, i);
    WholeFlags(flags);
    WholeFlags(flags[..i] + flags[i + 1..]);
    SortsAlike(Texts(flags), Texts(flags[..i] + flags[i + 1..]));
  }

  /** Lint, link and path flags say nothing, split or joined. */
  lemma LintsLinksAndPathsAreSilent(word: string, value: string)
    requires IsLintWord(word) || word in {"-L", "-l", "--remap-path-prefix"}
    ensures SaysNothing([word, value])
    ensures value != "" ==> SaysNothing([JoinedWord(word, value)])
  {
    if IsKindWord(word) { KindIsNoLint(word); }
    if value != "" { SplitOrJoined(word, value); }
  }

  /** How a flag's word is joined with its value. */
  function JoinedWord(word: string, value: string): string {
    if IsShort(word) then word + value else word + "=" + value
  }

  predicate IsShort(word: string) {
    word in {"-C", "-Z", "-L", "-l", "-A", "-W", "-D", "-F"}
  }

  /** A text differs from each prefix that differs from it at `k`. */
  lemma Differs(s: string, prefix: string, k: nat)
    requires k < |s| && k < |prefix| && s[k] != prefix[k]
    ensures !StartsWith(s, prefix)
  {
    assert |prefix| <= |s| ==> s[..|prefix|][k] == s[k];
  }

  /** A word with one dash starts no long flag. */
  lemma ShortStarts(arg: string)
    requires |arg| > 2 && arg[0] == '-' && arg[1] != '-'
    ensures !IsLintWord(arg) && !IsKindWord(arg)
    ensures IsLint(arg) <==> arg[1] in {'A', 'W', 'D', 'F'}
    ensures forall word :: IsShort(word) ==> (StartsWith(arg, word) <==> arg[1] == word[1])
    ensures !StartsWith(arg, "--cfg=") && !StartsWith(arg, "--remap-path-prefix=")
  {
    Differs(arg, "--allow=", 1);
    Differs(arg, "--warn=", 1);
    Differs(arg, "--deny=", 1);
    Differs(arg, "--forbid=", 1);
    Differs(arg, "--cap-lints=", 1);
    Differs(arg, "--force-warn=", 1);
    Differs(arg, "--cfg=", 1);
    Differs(arg, "--remap-path-prefix=", 1);
    assert arg[..2][0] == '-' && arg[..2][1] == arg[1];
    assert forall word :: IsShort(word) ==> |word| == 2 && word[0] == '-';
    forall word | IsShort(word) ensures StartsWith(arg, word) <==> arg[1] == word[1] {
      assert arg[..2] == word <==> arg[1] == word[1];
    }
  }

  lemma JoinedShort(word: string, value: string)
    requires IsShort(word) && value != ""
    ensures var arg := word + value;
      && !IsLintWord(arg) && !IsKindWord(arg)
      && (IsLintWord(word) ==> IsLint(arg))
      && (IsKindWord(word) ==> !IsLint(arg) && Joined(arg) == Some((word, value)))
  {
    var arg := word + value;
    ShortStarts(arg);
    assert arg[2..] == value && arg[1] == word[1];
  }

  lemma JoinedLongLint(word: string, value: string)
    requires IsLintWord(word) && !IsShort(word)
    ensures var arg := word + "=" + value; !IsLintWord(arg) && !IsKindWord(arg) && IsLint(arg)
  {
    var arg := word + "=" + value;
    assert arg[..|word| + 1] == word + "=";
    assert arg[|word|] == '=';
  }

  lemma JoinedParts(word: string, value: string)
    ensures var arg := word + "=" + value;
      arg[..|word| + 1] == word + "=" && arg[|word| + 1..] == value && arg[|word|] == '='
  {}

  lemma NoKindWord(word: string, value: string)
    requires word == "--cfg" || word == "--remap-path-prefix"
    ensures var arg := word + "=" + value; !IsLintWord(arg) && !IsKindWord(arg)
  {
    JoinedParts(word, value);
    assert |word| == 5 || |word| == 19;
  }

  lemma JoinedLongKind(word: string, value: string)
    requires word == "--cfg" || word == "--remap-path-prefix"
    ensures var arg := word + "=" + value;
      !IsLintWord(arg) && !IsKindWord(arg) && !IsLint(arg) && Joined(arg) == Some((word, value))
  {
    hide IsLint, IsLintWord, IsKindWord;
    NoKindWord(word, value);
    JoinedParts(word, value);
    LongStarts(word + "=" + value, word[2], word[3]);
    assert IsShort("-C") && IsShort("-Z");
  }

  /** A word with two dashes starts no short flag, and no long one that goes on otherwise. */
  lemma LongStarts(arg: string, c: char, d: char)
    requires |arg| > 4 && arg[0] == '-' && arg[1] == '-' && arg[2] == c && arg[3] == d
    requires (c == 'c' && d == 'f') || (c == 'r' && d == 'e')
    ensures !IsLint(arg) && forall word :: IsShort(word) ==> !StartsWith(arg, word)
    ensures c == 'r' ==> !StartsWith(arg, "--cfg=")
  {
    Differs(arg, "--allow=", 2);
    Differs(arg, "--warn=", 2);
    Differs(arg, "--deny=", 2);
    Differs(arg, "--forbid=", 2);
    if c == 'c' {
      Differs(arg, "--cap-lints=", 3);
    } else { Differs(arg, "--cap-lints=", 2); Differs(arg, "--cfg=", 2); }
    Differs(arg, "--force-warn=", 2);
    forall word | IsShort(word) ensures !StartsWith(arg, word) { Differs(arg, word, 1); }
    assert IsShort("-A") && IsShort("-W") && IsShort("-D") && IsShort("-F");
  }

  lemma JoinedIs(word: string, value: string)
    requires (IsLintWord(word) || IsKindWord(word)) && value != ""
    ensures var arg := JoinedWord(word, value);
      && !IsLintWord(arg) && !IsKindWord(arg)
      && (IsLintWord(word) ==> IsLint(arg))
      && (IsKindWord(word) ==> !IsLint(arg) && Joined(arg) == Some((word, value)))
  {
    if IsShort(word) { JoinedShort(word, value); }
    else if IsLintWord(word) { JoinedLongLint(word, value); }
    else { JoinedLongKind(word, value); }
  }

  /** A word alone is no flag in one word. */
  lemma KindIsNoLint(word: string)
    requires IsKindWord(word)
    ensures !IsLintWord(word) && !IsLint(word)
  {
    if IsShort(word) {
      assert word[..2] == word;
    } else {
      LongStarts(word, word[2], word[3]);
    }
  }

  /** A flag written in one word is the flag written in two. */
  lemma SplitOrJoined(word: string, value: string)
    requires (IsLintWord(word) || IsKindWord(word)) && value != ""
    ensures FirstFlag([JoinedWord(word, value)]).kept == FirstFlag([word, value]).kept
    ensures IsFlag([word, value]) <==> IsFlag([JoinedWord(word, value)])
  {
    hide IsLint, Joined, KeptOf, IsLintWord, IsKindWord, JoinedWord;
    JoinedIs(word, value);
    if IsKindWord(word) { KindIsNoLint(word); }
  }

  /** Writing any of the flags split or joined changes nothing. */
  lemma SplitOrJoinedChangesNothing(flags: seq<seq<string>>, i: nat, word: string, value: string)
    requires AllFlags(flags) && i < |flags| && (IsLintWord(word) || IsKindWord(word)) && value != ""
    requires flags[i] == [word, value] || flags[i] == [JoinedWord(word, value)]
    ensures Canonical(Words(flags[i := [word, value]])) == Canonical(Words(flags))
    ensures Canonical(Words(flags[i := [JoinedWord(word, value)]])) == Canonical(Words(flags))
  {
    SplitOrJoined(word, value);
    Rewritten(flags, i, [word, value]);
    Rewritten(flags, i, [JoinedWord(word, value)]);
  }

  lemma Rewritten(flags: seq<seq<string>>, i: nat, flag: seq<string>)
    requires AllFlags(flags) && i < |flags| && IsFlag(flag) && FirstFlag(flag).kept == FirstFlag(flags[i]).kept
    ensures Canonical(Words(flags[i := flag])) == Canonical(Words(flags))
  {
    var others := flags[i := flag];
    TextsSum(flags, i);
    TextsSum(others, i);
    assert others[..i] + others[i + 1..] == flags[..i] + flags[i + 1..];
    WholeFlags(flags);
    WholeFlags(others);
    SortsAlike(Texts(flags), Texts(others));
  }

  /** Texts kept so far, with those of the rest. */
  function After(kept: seq<string>, rest: Option<seq<string>>): Option<seq<string>> {
    if rest.None? then None else Some(kept + rest.value)
  }

  lemma AfterMore(kept: seq<string>, more: seq<string>, rest: Option<seq<string>>)
    ensures After(kept, After(more, rest)) == After(kept + more, rest)
    ensures After([], rest) == rest
    ensures After(kept, Some([])) == Some(kept)
  {
    if rest.Some? {
      assert kept + (more + rest.value) == (kept + more) + rest.value;
      assert [] + rest.value == rest.value;
    }
    assert kept + [] == kept;
  }

  // ── What flags say ──────────────────────────────────────────────

  lemma {:induction false} NoEquals(value: string)
    ensures '=' !in NameOf(value)
  {
    if value != "" && value[0] != '=' {
      NoEquals(value[1..]);
      assert NameOf(value) == [value[0]] + NameOf(value[1..]);
    }
  }

  lemma EqualsWithin(name: string, setting: string, name2: string, setting2: string)
    requires "-C" + name + "=" + setting == "-C" + name2 + "=" + setting2 && |name| < |name2|
    ensures '=' in name2
  {
    assert ("-C" + name + "=" + setting)[2 + |name|] == '=';
    assert ("-C" + name2 + "=" + setting2)[2 + |name|] == name2[|name|];
  }

  /** What an option is kept as tells its name and what it is set to. */
  lemma OptionsApart(name: string, setting: string, name2: string, setting2: string)
    requires '=' !in name && '=' !in name2 && "-C" + name + "=" + setting == "-C" + name2 + "=" + setting2
    ensures name == name2 && setting == setting2
  {
    var s, t := "-C" + name + "=" + setting, "-C" + name2 + "=" + setting2;
    if |name| < |name2| { EqualsWithin(name, setting, name2, setting2); }
    if |name2| < |name| { EqualsWithin(name2, setting2, name, setting); }
    assert name == s[2..2 + |name|] && name2 == t[2..2 + |name2|];
    assert setting == s[3 + |name|..] && setting2 == t[3 + |name2|..];
  }

  /** What a flag that matters sets: a configuration, an unstable option, or an option of code
      generation and what it is set to. */
  datatype Setting = Cfg(text: string) | Unstable(text: string) | Codegen(name: string, value: string)

  /** The kind and the value of a whole flag, in one word or two; none for a lint. */
  function KindAndValue(flag: seq<string>): Option<(string, string)>
    requires IsFlag(flag)
  {
    if IsLintWord(flag[0]) || IsLint(flag[0]) then None
    else if IsKindWord(flag[0]) then (if |flag| >= 2 then Some((flag[0], flag[1])) else None)
    else Joined(flag[0])
  }

  /** What a flag sets; nothing, when it does not matter. */
  function Sets(flag: seq<string>): seq<Setting>
    requires IsFlag(flag)
  {
    var kv := KindAndValue(flag);
    if kv.None? then []
    else if kv.value.0 == "--cfg" then [Cfg(kv.value.1)]
    else if kv.value.0 == "-Z" then [Unstable(kv.value.1)]
    else if kv.value.0 == "-C" && Matters(NameOf(kv.value.1)) then [Codegen(NameOf(kv.value.1), SettingOf(kv.value.1))]
    else []
  }

  function Settings(flags: seq<seq<string>>): seq<Setting>
    requires AllFlags(flags)
  {
    if flags == [] then []
    else
      assert IsFlag(flags[0]);
      Sets(flags[0]) + Settings(flags[1..])
  }

  function SettingText(s: Setting): string {
    match s
    case Cfg(text) => "--cfg" + text
    case Unstable(text) => "-Z" + text
    case Codegen(name, value) => "-C" + name + "=" + value
  }

  function SettingTexts(ss: seq<Setting>): (texts: seq<string>)
    ensures |texts| == |ss| && forall i :: 0 <= i < |ss| ==> texts[i] == SettingText(ss[i])
  {
    seq(|ss|, i requires 0 <= i < |ss| => SettingText(ss[i]))
  }

  predicate Named(s: Setting) {
    s.Codegen? ==> '=' !in s.name
  }

  predicate AllNamed(ss: seq<Setting>) {
    forall i :: 0 <= i < |ss| ==> Named(ss[i])
  }

  /** The text of a setting tells which it is. */
  lemma TextsApart(s: Setting, t: Setting)
    requires Named(s) && Named(t) && SettingText(s) == SettingText(t)
    ensures s == t
  {
    var text := SettingText(s);
    assert text[1] == (if s.Cfg? then '-' else if s.Unstable? then 'Z' else 'C');
    assert text[1] == (if t.Cfg? then '-' else if t.Unstable? then 'Z' else 'C');
    match s
    case Cfg(x) => assert text[5..] == x && SettingText(t)[5..] == t.text;
    case Unstable(x) => assert text[2..] == x && SettingText(t)[2..] == t.text;
    case Codegen(name, value) => OptionsApart(name, value, t.name, t.value);
  }

  /** What is kept of a flag is the text of what it sets. */
  lemma KeptIsSet(flag: seq<string>)
    requires IsFlag(flag)
    ensures TextsOf(FirstFlag(flag).kept) == SettingTexts(Sets(flag)) && AllNamed(Sets(flag))
  {
    var kv := KindAndValue(flag);
    if kv.Some? {
      NoEquals(kv.value.1);
      ValueKept(kv.value.0, kv.value.1);
    }
    hide IsLint, IsLintWord, KeptOf;
  }

  lemma ValueKept(kind: string, value: string)
    ensures kind == "--cfg" ==> KeptOf(kind, value) == Text(SettingText(Cfg(value)))
    ensures kind == "-Z" ==> KeptOf(kind, value) == Text(SettingText(Unstable(value)))
    ensures kind == "-C" ==> KeptOf(kind, value) != Unclassified ==>
      KeptOf(kind, value) ==
        if Matters(NameOf(value)) then Text(SettingText(Codegen(NameOf(value), SettingOf(value)))) else Nothing
    ensures kind != "--cfg" && kind != "-Z" && kind != "-C" ==> KeptOf(kind, value) == Nothing
  {}

  lemma {:induction false} TextsAreSettings(flags: seq<seq<string>>)
    requires AllFlags(flags)
    ensures Texts(flags) == SettingTexts(Settings(flags)) && AllNamed(Settings(flags))
    decreases |flags|
  {
    hide Sets, FirstFlag, IsFlag, Named;
    if flags != [] {
      KeptIsSet(flags[0]);
      TextsAreSettings(flags[1..]);
      assert SettingTexts(Sets(flags[0]) + Settings(flags[1..])) ==
        SettingTexts(Sets(flags[0])) + SettingTexts(Settings(flags[1..]));
    }
  }

  function Less(ss: seq<Setting>, i: nat): (less: seq<Setting>)
    requires i < |ss|
    ensures |less| < |ss|
  {
    ss[..i] + ss[i + 1..]
  }

  lemma OneSettingLess(ss: seq<Setting>, i: nat)
    requires i < |ss|
    ensures multiset(ss) == multiset(Less(ss, i)) + multiset{ss[i]}
    ensures multiset(SettingTexts(ss)) == multiset(SettingTexts(Less(ss, i))) + multiset{SettingText(ss[i])}
    ensures AllNamed(ss) ==> AllNamed(Less(ss, i))
  {
    hide SettingText, Named;
    var texts := SettingTexts(ss);
    assert ss == ss[..i] + [ss[i]] + ss[i + 1..];
    assert texts == texts[..i] + [texts[i]] + texts[i + 1..];
    assert SettingTexts(Less(ss, i)) == texts[..i] + texts[i + 1..];
  }

  lemma OneFromBoth<T>(whole: multiset<T>, less: multiset<T>, other: multiset<T>, fewer: multiset<T>, x: T)
    requires whole == less + multiset{x} && other == fewer + multiset{x}
    ensures whole == other <==> less == fewer
  {
    assert whole - multiset{x} == less && other - multiset{x} == fewer;
  }

  /** With `ss[0]` not in `ts`, neither settings nor texts are the same. */
  lemma FirstIsApart(ss: seq<Setting>, ts: seq<Setting>)
    requires AllNamed(ss) && AllNamed(ts) && ss != [] && ss[0] !in ts
    ensures multiset(ss) != multiset(ts) && multiset(SettingTexts(ss)) != multiset(SettingTexts(ts))
  {
    hide SettingText, Named;
    assert ss[0] in multiset(ss) && ss[0] !in multiset(ts);
    forall j | 0 <= j < |ts| ensures SettingTexts(ts)[j] != SettingText(ss[0]) {
      if SettingText(ts[j]) == SettingText(ss[0]) { TextsApart(ss[0], ts[j]); }
    }
    assert SettingTexts(ss)[0] in multiset(SettingTexts(ss)) && SettingTexts(ss)[0] !in multiset(SettingTexts(ts));
  }

  /** One setting less on both sides. */
  lemma LessOfBoth(ss: seq<Setting>, i: nat, ts: seq<Setting>, j: nat)
    requires i < |ss| && j < |ts| && ts[j] == ss[i]
    ensures multiset(ss) == multiset(ts) <==> multiset(Less(ss, i)) == multiset(Less(ts, j))
    ensures multiset(SettingTexts(ss)) == multiset(SettingTexts(ts)) <==>
      multiset(SettingTexts(Less(ss, i))) == multiset(SettingTexts(Less(ts, j)))
  {
    hide *;
    OneSettingLess(ss, i);
    OneSettingLess(ts, j);
    OneFromBoth(multiset(ss), multiset(Less(ss, i)), multiset(ts), multiset(Less(ts, j)), ss[i]);
    OneFromBoth(multiset(SettingTexts(ss)), multiset(SettingTexts(Less(ss, i))),
                multiset(SettingTexts(ts)), multiset(SettingTexts(Less(ts, j))), SettingText(ss[i]));
  }

  /** Settings are the same, each as often, exactly when their texts are. */
  lemma {:induction false} SameTextsSameSettings(ss: seq<Setting>, ts: seq<Setting>)
    requires AllNamed(ss) && AllNamed(ts)
    ensures multiset(SettingTexts(ss)) == multiset(SettingTexts(ts)) <==> multiset(ss) == multiset(ts)
    decreases |ss|
  {
    hide *;
    if ss == [] {
      if ts != [] { FirstIsApart(ts, ss); }
      assert ts == [] ==> ss == ts;
    } else if ss[0] !in ts {
      FirstIsApart(ss, ts);
    } else {
      var j :| 0 <= j < |ts| && ts[j] == ss[0];
      OneSettingLess(ss, 0);
      OneSettingLess(ts, j);
      SameTextsSameSettings(Less(ss, 0), Less(ts, j));
      LessOfBoth(ss, 0, ts, j);
    }
  }

  lemma SameSettings(flags: seq<seq<string>>, others: seq<seq<string>>)
    requires AllFlags(flags) && AllFlags(others)
    ensures Canonical(Words(flags)) == Canonical(Words(others)) <==>
      multiset(Settings(flags)) == multiset(Settings(others))
  {
    hide Texts, Settings, SettingTexts;
    WholeFlags(flags);
    WholeFlags(others);
    TextsAreSettings(flags);
    TextsAreSettings(others);
    SortsAlike(Texts(flags), Texts(others));
    SameTextsSameSettings(Settings(flags), Settings(others));
  }

  /** What arguments set, each as often; none when one is not classified. */
  function SetBy(args: seq<string>): Option<multiset<Setting>> {
    CutIsWhole(args);
    if Cut(args).None? then None else Some(multiset(Settings(Cut(args).value)))
  }

  /** Two builds have one identity exactly when their arguments set the same options to the same,
      each as often: however they are written and ordered, and whatever else is among them. */
  lemma IdentityExactly(args: seq<string>, others: seq<string>)
    ensures Canonical(args) == Canonical(others) <==> SetBy(args) == SetBy(others)
  {
    CutIsWhole(args);
    CutIsWhole(others);
    hide KeptAll, Cut, Settings, Words, AllFlags;
    if Cut(args).Some? && Cut(others).Some? { SameSettings(Cut(args).value, Cut(others).value); }
  }

  /** The canonical flags, as they are computed: by index over the arguments. */
  method CanonicalRustflags(args: seq<string>) returns (flags: Option<seq<string>>)
    ensures flags == Canonical(args)
  {
    hide FirstFlag, After;
    var kept, i := [], 0;
    assert args[0..] == args;
    AfterMore([], [], KeptAll(args));
    while i < |args|
      invariant i <= |args|
      invariant KeptAll(args) == After(kept, KeptAll(args[i..]))
    {
      var f := FirstFlag(args[i..]);
      FirstKept(args[i..]);
      if f.kept.Unclassified? {
        NoneAfter(kept);
        return None;
      }
      assert args[i..][f.words..] == args[i + f.words..];
      AfterMore(kept, TextsOf(f.kept), KeptAll(args[i + f.words..]));
      kept := kept + TextsOf(f.kept);
      i := i + f.words;
    }
    AfterMore(kept, [], Some([]));
    flags := Some(Sort(kept));
  }

  lemma FirstKept(args: seq<string>)
    requires args != []
    ensures var f := FirstFlag(args);
      KeptAll(args) == if f.kept.Unclassified? then None else After(TextsOf(f.kept), KeptAll(args[f.words..]))
  {}

  lemma NoneAfter(kept: seq<string>)
    ensures After(kept, None) == None
  {}
}
