/** Quoting text for a POSIX shell, against a reader of shell words
    (internal/commands/artifacts_provision.go, internal/commands/bastion.go,
    internal/bastion/phases.go).  Texts hold no NUL. */
module ShellQuote {
  import opened Prelude

  // ----- Reading a word -----

  datatype Mode = Plain | Escaped | Single | Double | DoubleEscaped

  datatype Reading = Reading(mode: Mode, value: string) | Bad

  /** Blanks, newlines and the first characters of operators end a word. */
  predicate EndsWord(c: char) { c in " \t\n;&|<>()" }

  /** Characters that make an unquoted word more than its own text. */
  predicate Expands(c: char) { c in "$`*?[~" }

  /** One more character of a word, with the quoting of sections 2.2.1 to 2.2.3 of
      the POSIX.1-2017 Shell Command Language; bad when the word ends or would be
      expanded. */
  function Next(r: Reading, c: char): Reading {
    match r
    case Bad => Bad
    case Reading(Plain, v) =>
      if c == '\'' then Reading(Single, v)
      else if c == '\"' then Reading(Double, v)
      else if c == '\\' then Reading(Escaped, v)
      else if EndsWord(c) || Expands(c) then Bad
      else Reading(Plain, v + [c])
    case Reading(Escaped, v) => Reading(Plain, if c == '\n' then v else v + [c])
    case Reading(Single, v) => if c == '\'' then Reading(Plain, v) else Reading(Single, v + [c])
    case Reading(Double, v) =>
      if c == '\"' then Reading(Plain, v)
      else if c == '\\' then Reading(DoubleEscaped, v)
      else if c == '$' || c == '`' then Bad
      else Reading(Double, v + [c])
    case Reading(DoubleEscaped, v) =>
      if c == '\n' then Reading(Double, v)
      else if c in "$`\"\\" then Reading(Double, v + [c])
      else Reading(Double, v + ['\\', c])
  }

  function ReadOn(r: Reading, s: string): Reading
    decreases |s|
  {
    if s == "" then r else ReadOn(Next(r, s[0]), s[1..])
  }

  /** The value of a text that is one word, with nothing left open. */
  function WordOf(s: string): Option<string> {
    match ReadOn(Reading(Plain, ""), s)
    case Reading(Plain, v) => if s == "" then None else Some(v)
    case _ => None
  }

  lemma {:induction false} ReadOnJoined(r: Reading, s: string, t: string)
    ensures ReadOn(r, s + t) == ReadOn(ReadOn(r, s), t)
    decreases |s|
  {
    if s == "" {
      assert s + t == t;
    } else {
      assert (s + t)[1..] == s[1..] + t;
      ReadOnJoined(Next(r, s[0]), s[1..], t);
    }
  }

  lemma ReadOne(r: Reading, c: char)
    ensures ReadOn(r, [c]) == Next(r, c)
  {
    assert [c][1..] == "";
  }

  // ----- The escapers -----

  /** strings.ReplaceAll of a single quote. */
  function ReplaceQuotes(v: string, form: string): string {
    if v == "" then "" else (if v[0] == '\'' then form else [v[0]]) + ReplaceQuotes(v[1..], form)
  }

  const BACKSLASHED := "'\\''"
  const DOUBLE_QUOTED := "'\"'\"'"

  predicate Escape(form: string) { form == BACKSLASHED || form == DOUBLE_QUOTED }

  function Quote(v: string, form: string): string { "'" + ReplaceQuotes(v, form) + "'" }

  /** What either replacement reads as inside single quotes: one quote. */
  lemma ReplacementIsAQuote(form: string, v: string)
    requires Escape(form)
    ensures ReadOn(Reading(Single, v), form) == Reading(Single, v + "'")
  {
    var plain, quoted := Reading(Plain, v), Reading(Plain, v + "'");
    if form == BACKSLASHED {
      assert form[1..] == "\\''" && form[1..][1..] == "''" && "''"[1..] == "'" && "'"[1..] == "";
      assert ReadOn(Reading(Single, v), form) == ReadOn(plain, "\\''");
      assert ReadOn(plain, "\\''") == ReadOn(Reading(Escaped, v), "''");
      assert ReadOn(Reading(Escaped, v), "''") == ReadOn(quoted, "'");
    } else {
      assert form[1..] == "\"'\"'" && form[1..][1..] == "'\"'" && "'\"'"[1..] == "\"'" && "\"'"[1..] == "'";
      assert ReadOn(Reading(Single, v), form) == ReadOn(plain, "\"'\"'");
      assert ReadOn(plain, "\"'\"'") == ReadOn(Reading(Double, v), "'\"'");
      assert ReadOn(Reading(Double, v), "'\"'") == ReadOn(Reading(Double, v + "'"), "\"'");
      assert ReadOn(Reading(Double, v + "'"), "\"'") == ReadOn(quoted, "'");
    }
    ReadOne(quoted, '\'');
  }

  lemma {:induction false} BodyReadsBack(v: string, form: string, before: string)
    requires Escape(form)
    ensures ReadOn(Reading(Single, before), ReplaceQuotes(v, form)) == Reading(Single, before + v)
    decreases |v|
  {
    if v == "" {
      assert before + v == before;
    } else {
      var first := if v[0] == '\'' then form else [v[0]];
      ReadOnJoined(Reading(Single, before), first, ReplaceQuotes(v[1..], form));
      if v[0] == '\'' { ReplacementIsAQuote(form, before); } else { ReadOne(Reading(Single, before), v[0]); }
      BodyReadsBack(v[1..], form, before + [v[0]]);
      assert before + [v[0]] + v[1..] == before + v;
    }
  }

  lemma QuoteReadsOn(v: string, form: string, before: string)
    requires Escape(form)
    ensures ReadOn(Reading(Plain, before), Quote(v, form)) == Reading(Plain, before + v)
  {
    ReadOnJoined(Reading(Plain, before), "'" + ReplaceQuotes(v, form), "'");
    ReadOnJoined(Reading(Plain, before), "'", ReplaceQuotes(v, form));
    ReadOne(Reading(Plain, before), '\'');
    BodyReadsBack(v, form, before);
    ReadOne(Reading(Single, before + v), '\'');
  }

  /** For every text, what either escaper prints is read as that one word. */
  lemma QuoteReadsBack(v: string, form: string)
    requires Escape(form)
    ensures WordOf(Quote(v, form)) == Some(v)
  {
    QuoteReadsOn(v, form, "");
    assert "" + v == v;
  }

  /** escapeShellString */
  function EscapeShellString(script: string): string { Quote(script, DOUBLE_QUOTED) }

  /** So a whole script, whatever is in it, is one argument of `bash -c`. */
  lemma EscapedScriptIsOneWord(script: string)
    ensures WordOf(EscapeShellString(script)) == Some(script)
  {
    QuoteReadsBack(script, DOUBLE_QUOTED);
  }

  // ----- Without escaping -----

  /** wrapScriptWithFunctions puts its values between quotes as they are. */
  function RawQuote(v: string): string { "'" + v + "'" }

  /** What has been read and, after a backslash, one character that may come of it. */
  function Potential(r: Reading): int {
    if r.Bad? then 0 else |r.value| + if r.mode.Escaped? || r.mode.DoubleEscaped? then 1 else 0
  }

  lemma {:induction false} NothingIsGained(r: Reading, s: string)
    ensures !r.Bad? ==> Potential(ReadOn(r, s)) <= Potential(r) + |s|
    ensures r.Bad? ==> ReadOn(r, s) == Bad
    decreases |s|
  {
    if s != "" { NothingIsGained(Next(r, s[0]), s[1..]); }
  }

  /** A quote that closes the word is lost, and so is every other one. */
  lemma {:induction false} EveryQuoteIsLost(v: string, before: string, end: string)
    requires '\'' in v
    requires ReadOn(Reading(Single, before), v + "'") == Reading(Plain, end)
    ensures |end| < |before| + |v|
    decreases |v|
  {
    assert (v + "'")[1..] == v[1..] + "'";
    if v[0] == '\'' {
      var mid := ReadOn(Reading(Plain, before), v[1..]);
      NothingIsGained(Reading(Plain, before), v[1..]);
      ReadOnJoined(Reading(Plain, before), v[1..], "'");
      ReadOne(mid, '\'');
    } else {
      EveryQuoteIsLost(v[1..], before + [v[0]], end);
    }
  }

  lemma {:induction false} NothingToReplace(v: string)
    requires '\'' !in v
    ensures ReplaceQuotes(v, BACKSLASHED) == v
  {
    if v != "" { NothingToReplace(v[1..]); }
  }

  /** Unescaped, a value is read back exactly when it holds no single quote. */
  lemma RawQuoteReadsBackExactlyWhen(v: string)
    ensures WordOf(RawQuote(v)) == Some(v) <==> '\'' !in v
  {
    if '\'' !in v {
      NothingToReplace(v);
      QuoteReadsBack(v, BACKSLASHED);
    } else {
      assert RawQuote(v)[1..] == v + "'";
      if WordOf(RawQuote(v)) == Some(v) { EveryQuoteIsLost(v, "", v); }
    }
  }

  // ----- Sourcing a file of assignments -----

  predicate NameStart(c: char) { 'a' <= c <= 'z' || 'A' <= c <= 'Z' || c == '_' }

  predicate NameChar(c: char) { NameStart(c) || '0' <= c <= '9' }

  /** A name that can be assigned to. */
  predicate ValidName(s: string) {
    s != "" && NameStart(s[0]) && forall i :: 0 <= i < |s| ==> NameChar(s[i])
  }

  datatype Sourcing =
    | LineStart(env: map<string, string>)
    | InName(env: map<string, string>, name: string)
    | InWord(env: map<string, string>, name: string, word: Reading)
    | Broken

  /** One more character of a file of assignments, one a line; broken by anything
      else. */
  function Sourced(st: Sourcing, c: char): Sourcing {
    match st
    case LineStart(env) => if c == '\n' then st else if NameStart(c) then InName(env, [c]) else Broken
    case InName(env, name) =>
      if c == '=' then InWord(env, name, Reading(Plain, ""))
      else if NameChar(c) then InName(env, name + [c])
      else Broken
    case InWord(env, name, word) =>
      if c == '\n' && word.Reading? && word.mode.Plain? then LineStart(env[name := word.value])
      else if Next(word, c).Bad? then Broken
      else InWord(env, name, Next(word, c))
    case Broken => Broken
  }

  function SourceOn(st: Sourcing, s: string): Sourcing
    decreases |s|
  {
    if s == "" then st else SourceOn(Sourced(st, s[0]), s[1..])
  }

  function AtEnd(st: Sourcing): Option<map<string, string>> {
    match st
    case LineStart(env) => Some(env)
    case InWord(env, name, Reading(Plain, v)) => Some(env[name := v])
    case _ => None
  }

  /** The variables a file sets, when it is a file of assignments. */
  function Source(s: string): Option<map<string, string>> { AtEnd(SourceOn(LineStart(map[]), s)) }

  lemma {:induction false} SourceOnJoined(st: Sourcing, s: string, t: string)
    ensures SourceOn(st, s + t) == SourceOn(SourceOn(st, s), t)
    decreases |s|
  {
    if s == "" {
      assert s + t == t;
    } else {
      assert (s + t)[1..] == s[1..] + t;
      SourceOnJoined(Sourced(st, s[0]), s[1..], t);
    }
  }

  lemma SourceOne(st: Sourcing, c: char)
    ensures SourceOn(st, [c]) == Sourced(st, c)
  {
    assert [c][1..] == "";
  }

  lemma {:induction false} NameIsRead(env: map<string, string>, name: string, more: string)
    requires forall i :: 0 <= i < |more| ==> NameChar(more[i])
    ensures SourceOn(InName(env, name), more) == InName(env, name + more)
    decreases |more|
  {
    if more == "" {
      assert name + more == name;
    } else {
      NameIsRead(env, name + [more[0]], more[1..]);
      assert name + [more[0]] + more[1..] == name + more;
    }
  }

  /** Inside a word the file is read as the word is, but for a newline outside
      quotes. */
  lemma {:induction false} WordIsRead(env: map<string, string>, name: string, word: Reading, s: string)
    requires word.Reading? && ReadOn(word, s).Reading?
    ensures SourceOn(InWord(env, name, word), s) == InWord(env, name, ReadOn(word, s))
    decreases |s|
  {
    if s != "" {
      NothingIsGained(Next(word, s[0]), s[1..]);
      WordIsRead(env, name, Next(word, s[0]), s[1..]);
    }
  }

  // ----- Files of assignments -----

  function Line(key: string, value: string): string { key + "=" + Quote(value, BACKSLASHED) }

  lemma LineIsRead(env: map<string, string>, key: string, value: string)
    requires ValidName(key)
    ensures SourceOn(LineStart(env), Line(key, value)) == InWord(env, key, Reading(Plain, value))
  {
    var quoted := Quote(value, BACKSLASHED);
    SourceOnJoined(LineStart(env), key + "=", quoted);
    SourceOnJoined(LineStart(env), key, "=");
    NameIsRead(env, [key[0]], key[1..]);
    assert [key[0]] + key[1..] == key;
    SourceOne(InName(env, key), '=');
    QuoteReadsOn(value, BACKSLASHED, "");
    assert "" + value == value;
    WordIsRead(env, key, Reading(Plain, ""), quoted);
  }

  function Join(lines: seq<string>): string {
    if lines == [] then ""
    else if |lines| == 1 then lines[0]
    else Join(lines[..|lines| - 1]) + ("\n" + lines[|lines| - 1])
  }

  /** The lines for these keys, in this order. */
  function Lines(env: map<string, string>, keys: seq<string>): (r: seq<string>)
    requires forall k | k in keys :: k in env
    ensures |r| == |keys|
  {
    if keys == [] then []
    else Lines(env, keys[..|keys| - 1]) + [Line(keys[|keys| - 1], env[keys[|keys| - 1]])]
  }

  function Restricted(env: map<string, string>, keys: seq<string>): map<string, string> {
    map k | k in keys && k in env :: env[k]
  }

  lemma RestrictedMore(env: map<string, string>, keys: seq<string>)
    requires keys != [] && forall k | k in keys :: k in env
    ensures var n := |keys| - 1; Restricted(env, keys) == Restricted(env, keys[..n])[keys[n] := env[keys[n]]]
  {
    assert keys == keys[..|keys| - 1] + [keys[|keys| - 1]];
  }

  lemma JoinLines(env: map<string, string>, keys: seq<string>)
    requires |keys| > 1 && forall k | k in keys :: k in env
    ensures var n := |keys| - 1;
            Join(Lines(env, keys)) == Join(Lines(env, keys[..n])) + ("\n" + Line(keys[n], env[keys[n]]))
  {
    var n := |keys| - 1;
    assert Lines(env, keys)[..n] == Lines(env, keys[..n]);
  }

  lemma {:induction false} LinesAreRead(env: map<string, string>, keys: seq<string>)
    requires keys != [] && forall k | k in keys :: k in env && ValidName(k)
    ensures var st := SourceOn(LineStart(map[]), Join(Lines(env, keys)));
            st.InWord? && AtEnd(st) == Some(Restricted(env, keys))
    decreases |keys|
  {
    var n := |keys| - 1;
    var key, value := keys[n], env[keys[n]];
    RestrictedMore(env, keys);
    if n == 0 {
      LineIsRead(map[], key, value);
      assert Restricted(env, keys[..0]) == map[];
    } else {
      LinesAreRead(env, keys[..n]);
      JoinLines(env, keys);
      SourceOnJoined(LineStart(map[]), Join(Lines(env, keys[..n])), "\n" + Line(key, value));
      EndsInWord(SourceOn(LineStart(map[]), Join(Lines(env, keys[..n]))), Restricted(env, keys[..n]), key, value);
    }
  }

  lemma EndsInWord(st: Sourcing, env: map<string, string>, key: string, value: string)
    requires AtEnd(st) == Some(env) && st.InWord? && ValidName(key)
    ensures var next := SourceOn(st, "\n" + Line(key, value));
            next.InWord? && AtEnd(next) == Some(env[key := value])
  {
    SourceOnJoined(st, "\n", Line(key, value));
    SourceOne(st, '\n');
    LineIsRead(env, key, value);
  }

  ghost predicate ValidNames(st: Sourcing) {
    match st
    case LineStart(env) => forall k | k in env :: ValidName(k)
    case InName(env, name) => ValidName(name) && forall k | k in env :: ValidName(k)
    case InWord(env, name, _) => ValidName(name) && forall k | k in env :: ValidName(k)
    case Broken => true
  }

  /** Only valid names are ever assigned. */
  lemma {:induction false} OnlyNamesAreAssigned(st: Sourcing, s: string)
    requires ValidNames(st)
    ensures ValidNames(SourceOn(st, s))
    decreases |s|
  {
    if s != "" { OnlyNamesAreAssigned(Sourced(st, s[0]), s[1..]); }
  }

  predicate Lists(keys: seq<string>, env: map<string, string>) {
    (forall k | k in keys :: k in env) && (forall k | k in env :: k in keys)
  }

  /** Sourcing the rendered environment recovers it, with any values in any order of
      keys, exactly when every key is a valid shell name. */
  lemma SourceRecoversExactlyWhen(env: map<string, string>, keys: seq<string>)
    requires Lists(keys, env)
    ensures Source(Join(Lines(env, keys))) == Some(env) <==> forall k | k in env :: ValidName(k)
  {
    if forall k | k in env :: ValidName(k) {
      if keys != [] { LinesAreRead(env, keys); }
      assert Restricted(env, keys) == env;
    }
    OnlyNamesAreAssigned(LineStart(map[]), Join(Lines(env, keys)));
  }

  /** renderEnvAssignments; `keys` are the sorted keys of the map. */
  method RenderEnvAssignments(env: map<string, string>, keys: seq<string>) returns (text: string)
    requires Lists(keys, env)
    ensures text == Join(Lines(env, keys))
    ensures Source(text) == Some(env) <==> forall k | k in env :: ValidName(k)
  {
    var lines: seq<string>, i := [], 0;
    while i < |keys|
      invariant i <= |keys| && lines == Lines(env, keys[..i])
    {
      var escaped := ReplaceQuotes(env[keys[i]], BACKSLASHED);
      lines := lines + [keys[i] + "=" + ("'" + escaped + "'")];
      assert keys[..i + 1][..i] == keys[..i];
      i := i + 1;
    }
    assert keys[..i] == keys;
    text := Join(lines);
    SourceRecoversExactlyWhen(env, keys);
  }

  // ----- What is forwarded to the bastion -----

  const VAR_NAMES: seq<string> := [
    "OCFP_BLOC", "OCFP_PROVIDER", "STACKIT_PROJECT_ID", "STACKIT_ORG_ID", "STACKIT_REGION", "PVE_HOST", "PVE_NODE",
    "PVE_TOKEN_ID", "PVE_TOKEN_SECRET", "PVE_BRIDGE", "PVE_STORAGE_POOL", "PVE_ISO_STORAGE"]

  function Lookup(env: map<string, string>, name: string): string {
    if name in env then env[name] else ""
  }

  /** The operator's value, or failing that the configuration's. */
  function Resolved(operator: map<string, string>, config: map<string, string>, name: string): string {
    if Lookup(operator, name) != "" then Lookup(operator, name) else Lookup(config, name)
  }

  function Forwarded(names: seq<string>, operator: map<string, string>, config: map<string, string>): map<string, string> {
    map name | name in names && Resolved(operator, config, name) != "" :: Resolved(operator, config, name)
  }

  /** What is forwarded for a name: the operator's value where there is one, the
      configuration's where there is only that, and nothing where there is neither. */
  lemma OperatorComesFirst(names: seq<string>, operator: map<string, string>, config: map<string, string>, name: string)
    requires name in names
    ensures var env := Forwarded(names, operator, config);
            && (name in operator && operator[name] != "" ==> name in env && env[name] == operator[name])
            && ((name in operator ==> operator[name] == "") && name in config && config[name] != "" ==>
                  name in env && env[name] == config[name])
            && (name in env ==> (name in operator && operator[name] != "") || (name in config && config[name] != ""))
  {
  }

  predicate FourAreValid(lo: nat) {
    forall j :: lo <= j < lo + 4 && j < |VAR_NAMES| ==> ValidName(VAR_NAMES[j])
  }

  lemma FirstNames() ensures FourAreValid(0) {}

  lemma MiddleNames() ensures FourAreValid(4) {}

  lemma LastNames() ensures FourAreValid(8) {}

  lemma VarNamesAreValid()
    ensures forall name | name in VAR_NAMES :: ValidName(name)
  {
    FirstNames();
    MiddleNames();
    LastNames();
    forall name | name in VAR_NAMES ensures ValidName(name) {
      var j :| 0 <= j < |VAR_NAMES| && VAR_NAMES[j] == name;
    }
  }

  lemma AddedLine(env: map<string, string>, keys: seq<string>, name: string)
    requires forall k | k in keys + [name] :: k in env
    ensures Lines(env, keys + [name]) == Lines(env, keys) + [Line(name, env[name])]
  {
    assert (keys + [name])[..|keys|] == keys;
  }

  /** appendEnvVar: one more line, unless the name has no value. */
  method AppendEnvVar(vars: seq<string>, name: string, operator: map<string, string>, config: map<string, string>)
    returns (more: seq<string>)
    ensures var val := Resolved(operator, config, name);
            more == if val == "" then vars else vars + [Line(name, val)]
  {
    var val := Lookup(operator, name);
    if val == "" { val := Lookup(config, name); }
    if val == "" { return vars; }
    var escaped := ReplaceQuotes(val, BACKSLASHED);
    return vars + [name + "=" + ("'" + escaped + "'")];
  }

  /** The lines so far are those of `keys`, the forwarded ones of the first `i`. */
  ghost predicate Collected(env: map<string, string>, names: seq<string>, i: nat, keys: seq<string>, lines: seq<string>)
    requires i <= |names|
  {
    && (forall k | k in keys :: k in env)
    && (forall j :: 0 <= j < i && names[j] in env ==> names[j] in keys)
    && lines == Lines(env, keys)
  }

  lemma CollectMore(env: map<string, string>, names: seq<string>, i: nat, keys: seq<string>, lines: seq<string>, val: string)
    returns (more: seq<string>)
    requires i < |names| && Collected(env, names, i, keys, lines)
    requires if val == "" then names[i] !in env else names[i] in env && env[names[i]] == val
    ensures Collected(env, names, i + 1, more, if val == "" then lines else lines + [Line(names[i], val)])
  {
    more := keys;
    if names[i] in env {
      AddedLine(env, keys, names[i]);
      more := keys + [names[i]];
    }
  }

  /** Sourced, the lines give exactly the names that have a value, the operator's
      before the configuration's. */
  method ForwardVariables(names: seq<string>, operator: map<string, string>, config: map<string, string>)
    returns (text: string)
    requires forall name | name in names :: ValidName(name)
    ensures Source(text) == Some(Forwarded(names, operator, config))
  {
    var envVars: seq<string>, i := [], 0;
    ghost var env, keys: seq<string> := Forwarded(names, operator, config), [];
    while i < |names|
      invariant i <= |names| && Collected(env, names, i, keys, envVars)
    {
      keys := CollectMore(env, names, i, keys, envVars, Resolved(operator, config, names[i]));
      envVars := AppendEnvVar(envVars, names[i], operator, config);
      i := i + 1;
    }
    text := Join(envVars);
    SourceRecoversExactlyWhen(env, keys);
  }

  method BuildEnvironmentVariables(operator: map<string, string>, config: map<string, string>) returns (text: string)
    ensures Source(text) == Some(Forwarded(VAR_NAMES, operator, config))
  {
    VarNamesAreValid();
    text := ForwardVariables(VAR_NAMES, operator, config);
  }
}
