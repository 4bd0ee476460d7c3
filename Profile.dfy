/** The string logic of digest profiles: `${NAME}` / `${NAME:default}` references expanded
    from the environment throughout a loaded profile, the required-field readers, the provider
    check, the `allowed_tags` filter, and the profile-id check of `init_profile`. The
    environment is a map; reading the YAML file and copying profile directories are left to
    the caller. */
module Profile {
  import opened Base
  import opened Strings
  import opened JsonValue
  import BatchMonths

  // ---------------------------------------------------------------------------------------
  // Environment references

  predicate IsNameStart(c: char) {
    'A' <= c <= 'Z' || 'a' <= c <= 'z' || c == '_'
  }

  predicate IsNameChar(c: char) {
    IsNameStart(c) || '0' <= c <= '9'
  }

  /** `[A-Za-z_][A-Za-z0-9_]*` */
  predicate ValidName(name: string) {
    |name| >= 1 && IsNameStart(name[0]) && forall i :: 0 <= i < |name| ==> IsNameChar(name[i])
  }

  /** The length of the longest run of name characters starting at `j`. */
  function NameLen(s: string, j: nat): (k: nat)
    requires j <= |s|
    ensures j + k <= |s|
    ensures forall i :: j <= i < j + k ==> IsNameChar(s[i])
    ensures j + k == |s| || !IsNameChar(s[j + k])
    decreases |s| - j
  {
    if j < |s| && IsNameChar(s[j]) then 1 + NameLen(s, j + 1) else 0
  }

  /** The length of the longest run without a `}` starting at `j`. */
  function DefaultLen(s: string, j: nat): (k: nat)
    requires j <= |s|
    ensures j + k <= |s|
    ensures forall i :: j <= i < j + k ==> s[i] != '}'
    ensures j + k == |s| || s[j + k] == '}'
    decreases |s| - j
  {
    if j < |s| && s[j] != '}' then 1 + DefaultLen(s, j + 1) else 0
  }

  /** A run is exactly as long as the characters that qualify. */
  lemma {:induction false} NameLenExact(s: string, j: nat, k: nat)
    requires j + k <= |s|
    requires forall i :: j <= i < j + k ==> IsNameChar(s[i])
    requires j + k == |s| || !IsNameChar(s[j + k])
    ensures NameLen(s, j) == k
    decreases k
  {
    if k > 0 {
      NameLenExact(s, j + 1, k - 1);
    }
  }

  lemma {:induction false} DefaultLenExact(s: string, j: nat, k: nat)
    requires j + k <= |s|
    requires forall i :: j <= i < j + k ==> s[i] != '}'
    requires j + k == |s| || s[j + k] == '}'
    ensures DefaultLen(s, j) == k
    decreases k
  {
    if k > 0 {
      DefaultLenExact(s, j + 1, k - 1);
    }
  }

  /** A reference found in the text: the variable's name, the default when one is written,
      and where the reference ends. */
  datatype Ref = Ref(name: string, default: Option<string>, end: nat)

  /** How a reference is written. */
  function RefText(name: string, default: Option<string>): string {
    "${" + name + (if default.Some? then ":" + default.value else "") + "}"
  }

  /** A prefix `${` name `}` reads as a reference without a default. */
  lemma PlainRefPrefix(s: string, n: nat)
    requires 2 <= n < |s| && s[0] == '$' && s[1] == '{' && s[n] == '}'
    ensures s[..n + 1] == RefText(s[2..n], None)
  {
    assert s[..n + 1] == "${" + s[2..n] + "}";
  }

  /** A prefix `${` name `:` default `}` reads as a reference with that default. */
  lemma DefaultRefPrefix(s: string, n: nat, d: nat)
    requires 2 <= n < d < |s| && s[0] == '$' && s[1] == '{' && s[n] == ':' && s[d] == '}'
    ensures s[..d + 1] == RefText(s[2..n], Some(s[n + 1..d]))
  {
    assert s[..d + 1] == "${" + s[2..n] + ":" + s[n + 1..d] + "}";
  }

  /** The pattern `\$\{([A-Za-z_][A-Za-z0-9_]*)(?::([^}]*))?\}` tried at the start of `s`. */
  function MatchAt(s: string): (r: Option<Ref>)
    ensures r.Some? ==> 0 < r.value.end <= |s| && s[..r.value.end] == RefText(r.value.name, r.value.default)
    ensures r.Some? ==> ValidName(r.value.name)
    ensures r.Some? && r.value.default.Some? ==> '}' !in r.value.default.value
    ensures |s| > 0 && s[0] != '$' ==> r.None?
  {
    if |s| >= 3 && s[0] == '$' && s[1] == '{' && IsNameStart(s[2]) then
      var n := 2 + NameLen(s, 2);
      if n < |s| && s[n] == '}' then
        PlainRefPrefix(s, n);
        Some(Ref(s[2..n], None, n + 1))
      else if n < |s| && s[n] == ':' then
        var d := n + 1 + DefaultLen(s, n + 1);
        if d < |s| then
          DefaultRefPrefix(s, n, d);
          assert '}' !in s[n + 1..d];
          Some(Ref(s[2..n], Some(s[n + 1..d]), d + 1))
        else None
      else None
    else None
  }

  /** A well-formed reference at the start of the text is found, and read back as written. */
  lemma MatchRefText(name: string, default: Option<string>, post: string)
    requires ValidName(name)
    requires default.Some? ==> '}' !in default.value
    ensures MatchAt(RefText(name, default) + post) == Some(Ref(name, default, |RefText(name, default)|))
  {
    var s := RefText(name, default) + post;
    var n := 2 + |name|;
    assert s[2..n] == name;
    assert s[n] == (if default.Some? then ':' else '}');
    NameLenExact(s, 2, |name|);
    if default.Some? {
      var d := default.value;
      assert s[n + 1..n + 1 + |d|] == d;
      assert s[n + 1 + |d|] == '}';
      assert forall i :: n + 1 <= i < n + 1 + |d| ==> s[i] == d[i - n - 1];
      DefaultLenExact(s, n + 1, |d|);
    }
  }

  const Missing: string := "Missing required environment variable: "

  /** `repl`: the environment's value when the variable is set, even if a default is written;
      else the default, possibly empty; else a RuntimeError naming the variable. */
  function Replacement(ref: Ref, env: map<string, string>): (r: Result<string>)
    ensures ref.name in env ==> r == Ok(env[ref.name])
    ensures ref.name !in env && ref.default.Some? ==> r == Ok(ref.default.value)
    ensures ref.name !in env && ref.default.None? ==> r == Err(Exc("RuntimeError", Missing + ref.name, false))
  {
    if ref.name in env then Ok(env[ref.name])
    else if ref.default.Some? then Ok(ref.default.value)
    else Err(Exc("RuntimeError", Missing + ref.name, false))
  }

  /** `_expand_env_str`: `re.sub` with `repl`, scanning left to right; a reference is replaced
      by its value, which is not scanned again, and any other character is kept. */
  function ExpandEnvStr(s: string, env: map<string, string>): (r: Result<string>)
    ensures r.Err? ==> r.exc.name == "RuntimeError" && !r.exc.fatal && StartsWith(r.exc.message, Missing)
    ensures r.Err? ==> '$' in s
    decreases |s|
  {
    if |s| == 0 then Ok("")
    else match MatchAt(s)
      case Some(ref) =>
        var value :- Replacement(ref, env);
        var rest :- ExpandEnvStr(s[ref.end..], env);
        Ok(value + rest)
      case None =>
        var rest :- ExpandEnvStr(s[1..], env);
        Ok([s[0]] + rest)
  }

  /** `a` followed by `b`, the first failure winning. */
  function Joined(a: Result<string>, b: Result<string>): Result<string> {
    if a.Err? then a else if b.Err? then b else Ok(a.value + b.value)
  }

  /** A character that cannot start a reference is kept and the scan moves past it. */
  lemma ExpandSkip(s: string, env: map<string, string>)
    requires |s| > 0 && s[0] != '$'
    ensures ExpandEnvStr(s, env) == Joined(Ok([s[0]]), ExpandEnvStr(s[1..], env))
  {
    assert MatchAt(s) == None;
  }

  /** Text without a `$` in front of the rest is kept, and the rest is expanded on its own. */
  lemma {:induction false} ExpandPrefix(pre: string, rest: string, env: map<string, string>)
    requires '$' !in pre
    ensures ExpandEnvStr(pre + rest, env) == Joined(Ok(pre), ExpandEnvStr(rest, env))
    decreases |pre|
  {
    if |pre| == 0 {
      assert pre + rest == rest;
      if ExpandEnvStr(rest, env).Ok? {
        assert pre + ExpandEnvStr(rest, env).value == ExpandEnvStr(rest, env).value;
      }
    } else {
      var s := pre + rest;
      ExpandSkip(s, env);
      assert s[1..] == pre[1..] + rest;
      assert '$' !in pre[1..];
      ExpandPrefix(pre[1..], rest, env);
      if ExpandEnvStr(rest, env).Ok? {
        assert [pre[0]] + (pre[1..] + ExpandEnvStr(rest, env).value) == pre + ExpandEnvStr(rest, env).value;
      }
    }
  }

  /** Text without a `$` comes back unchanged. */
  lemma ExpandPlain(s: string, env: map<string, string>)
    requires '$' !in s
    ensures ExpandEnvStr(s, env) == Ok(s)
  {
    ExpandPrefix(s, "", env);
    assert s + "" == s;
  }

  /** A reference at the start is replaced by its value and the scan goes on after it. */
  lemma ExpandAtRef(name: string, default: Option<string>, post: string, env: map<string, string>)
    requires ValidName(name)
    requires default.Some? ==> '}' !in default.value
    ensures ExpandEnvStr(RefText(name, default) + post, env) ==
      Joined(Replacement(Ref(name, default, |RefText(name, default)|), env), ExpandEnvStr(post, env))
  {
    var t := RefText(name, default);
    MatchRefText(name, default, post);
    assert (t + post)[|t|..] == post;
  }

  /** A reference after text without a `$` is replaced by its value verbatim, and the scan
      goes on after it: what the value contains is never expanded. */
  lemma ExpandSplice(pre: string, name: string, default: Option<string>, post: string,
                     env: map<string, string>)
    requires '$' !in pre && ValidName(name)
    requires default.Some? ==> '}' !in default.value
    ensures ExpandEnvStr(pre + RefText(name, default) + post, env) ==
      Joined(Ok(pre), Joined(Replacement(Ref(name, default, |RefText(name, default)|), env), ExpandEnvStr(post, env)))
  {
    var t := RefText(name, default);
    assert pre + t + post == pre + (t + post);
    ExpandPrefix(pre, t + post, env);
    ExpandAtRef(name, default, post, env);
  }

  /** A set variable wins over a written default. */
  lemma SetVariableWins(name: string, d: string, env: map<string, string>)
    requires ValidName(name) && '}' !in d && name in env
    ensures ExpandEnvStr(RefText(name, Some(d)), env) == Ok(env[name])
  {
    ExpandAtRef(name, Some(d), "", env);
    assert RefText(name, Some(d)) + "" == RefText(name, Some(d));
    assert ExpandEnvStr("", env) == Ok("");
    assert env[name] + "" == env[name];
  }

  /** An unset variable without a default raises, naming the variable. */
  lemma UnsetVariableRaises(pre: string, name: string, post: string, env: map<string, string>)
    requires '$' !in pre && ValidName(name) && name !in env
    ensures ExpandEnvStr(pre + RefText(name, None) + post, env) == Err(Exc("RuntimeError", Missing + name, false))
  {
    ExpandSplice(pre, name, None, post, env);
  }

  /** Text the pattern does not match is kept as it is: a `$` without a brace, a name that
      starts with a digit, and a reference that is never closed. */
  lemma DollarWithoutBrace(env: map<string, string>)
    ensures ExpandEnvStr("$X", env) == Ok("$X")
  {
    var s := "$X";
    assert MatchAt(s) == None;
    assert s[1..] == "X";
    ExpandPlain("X", env);
    assert [s[0]] + "X" == s;
  }

  lemma NameStartsWithDigit(env: map<string, string>)
    ensures ExpandEnvStr("${1X}", env) == Ok("${1X}")
  {
    var s := "${1X}";
    assert !IsNameStart(s[2]);
    assert MatchAt(s) == None;
    assert s[1..] == "{1X}";
    ExpandPlain("{1X}", env);
    assert [s[0]] + "{1X}" == s;
  }

  lemma UnclosedReference(env: map<string, string>)
    ensures ExpandEnvStr("${A", env) == Ok("${A")
  {
    var s := "${A";
    assert NameLen(s, 2) == 1 by {
      assert NameLen(s, 3) == 0;
    }
    assert MatchAt(s) == None;
    assert s[1..] == "{A";
    ExpandPlain("{A", env);
    assert [s[0]] + "{A" == s;
  }

  // ---------------------------------------------------------------------------------------
  // Expanding a loaded profile

  /** `_expand_env`: strings are expanded, lists item by item, dicts value by value under their
      keys, and every other value is left as it is; the first reference that raises ends it. */
  function ExpandEnv(j: Json, env: map<string, string>): (r: Result<Json>)
    ensures r.Ok? && j.Arr? ==> r.value.Arr? && |r.value.items| == |j.items|
    ensures r.Ok? && j.Obj? ==> r.value.Obj? && KeysOf(r.value.fields) == KeysOf(j.fields)
    ensures r.Ok? && j.Str? ==> r.value.Str?
    ensures !(j.Str? || j.Arr? || j.Obj?) ==> r == Ok(j)
    decreases j, 1
  {
    match j
    case Str(s) =>
      var v :- ExpandEnvStr(s, env);
      Ok(Str(v))
    case Arr(items) =>
      var xs :- ExpandItems(items, env);
      Ok(Arr(xs))
    case Obj(fields) =>
      var fs :- ExpandFields(fields, env);
      Ok(Obj(fs))
    case _ => Ok(j)
  }

  function ExpandItems(items: seq<Json>, env: map<string, string>): (r: Result<seq<Json>>)
    ensures r.Ok? ==> |r.value| == |items|
    decreases items, 0
  {
    if |items| == 0 then Ok([])
    else
      var x :- ExpandEnv(items[0], env);
      var rest :- ExpandItems(items[1..], env);
      Ok([x] + rest)
  }

  function ExpandFields(fields: seq<(string, Json)>, env: map<string, string>): (r: Result<seq<(string, Json)>>)
    ensures r.Ok? ==> KeysOf(r.value) == KeysOf(fields)
    decreases fields, 0
  {
    if |fields| == 0 then Ok([])
    else
      assert fields[0].1 < fields[0];
      var v :- ExpandEnv(fields[0].1, env);
      var rest :- ExpandFields(fields[1..], env);
      assert KeysOf([(fields[0].0, v)] + rest) == [fields[0].0] + KeysOf(rest);
      assert KeysOf(fields) == [fields[0].0] + KeysOf(fields[1..]);
      Ok([(fields[0].0, v)] + rest)
  }

  /** No string anywhere in the value holds a `$`. */
  predicate NoRefs(j: Json)
    decreases j, 1
  {
    match j
    case Str(s) => '$' !in s
    case Arr(items) => NoRefsItems(items)
    case Obj(fields) => NoRefsFields(fields)
    case _ => true
  }

  predicate NoRefsItems(items: seq<Json>)
    decreases items, 0
  {
    |items| == 0 || (NoRefs(items[0]) && NoRefsItems(items[1..]))
  }

  predicate NoRefsFields(fields: seq<(string, Json)>)
    decreases fields, 0
  {
    if |fields| == 0 then true
    else
      assert fields[0].1 < fields[0];
      NoRefs(fields[0].1) && NoRefsFields(fields[1..])
  }

  /** A profile that mentions no variable is loaded exactly as written. */
  lemma {:induction false} ExpandEnvNoRefs(j: Json, env: map<string, string>)
    requires NoRefs(j)
    ensures ExpandEnv(j, env) == Ok(j)
    decreases j, 1
  {
    match j
    case Str(s) => ExpandPlain(s, env);
    case Arr(items) => ExpandItemsNoRefs(items, env);
    case Obj(fields) => ExpandFieldsNoRefs(fields, env);
    case _ =>
  }

  lemma {:induction false} ExpandItemsNoRefs(items: seq<Json>, env: map<string, string>)
    requires NoRefsItems(items)
    ensures ExpandItems(items, env) == Ok(items)
    decreases items, 0
  {
    if |items| > 0 {
      ExpandEnvNoRefs(items[0], env);
      ExpandItemsNoRefs(items[1..], env);
      assert [items[0]] + items[1..] == items;
    }
  }

  lemma {:induction false} ExpandFieldsNoRefs(fields: seq<(string, Json)>, env: map<string, string>)
    requires NoRefsFields(fields)
    ensures ExpandFields(fields, env) == Ok(fields)
    decreases fields, 0
  {
    if |fields| > 0 {
      assert fields[0].1 < fields[0];
      ExpandEnvNoRefs(fields[0].1, env);
      ExpandFieldsNoRefs(fields[1..], env);
      assert [(fields[0].0, fields[0].1)] + fields[1..] == fields;
    }
  }

  // ---------------------------------------------------------------------------------------
  // Required fields

  function MissingField(kind: string, path: string, key: string): Exc {
    Exc("RuntimeError", "Missing " + kind + " `" + path + "." + key + "`", false)
  }

  /** `_required_str`: the value stripped; missing, not a string, or blank raises. */
  function RequiredStr(root: Json, key: string, path: string): (r: Result<string>)
    requires root.Obj?
    ensures r.Ok? <==> Get(root, key).Some? && Get(root, key).value.Str? && !IsBlank(Get(root, key).value.s)
    ensures r.Ok? ==> r.value == Strip(Get(root, key).value.s) && r.value != []
    ensures r.Err? ==> r.exc == MissingField("string", path, key)
  {
    match Get(root, key)
    case Some(Str(s)) =>
      if IsBlank(s) then Err(MissingField("string", path, key))
      else Ok(Strip(s))
    case _ => Err(MissingField("string", path, key))
  }

  /** `_required_dict`: the value when it is a dict; anything else raises. */
  function RequiredDict(root: Json, key: string, path: string): (r: Result<Json>)
    requires root.Obj?
    ensures r.Ok? <==> Get(root, key).Some? && Get(root, key).value.Obj?
    ensures r.Ok? ==> Some(r.value) == Get(root, key)
    ensures r.Err? ==> r.exc == MissingField("object", path, key)
  {
    match Get(root, key)
    case Some(Obj(fs)) => Ok(Obj(fs))
    case _ => Err(MissingField("object", path, key))
  }

  /** `_required_list`: the items when the value is a list; anything else raises. */
  function RequiredList(root: Json, key: string, path: string): (r: Result<seq<Json>>)
    requires root.Obj?
    ensures r.Ok? <==> Get(root, key).Some? && Get(root, key).value.Arr?
    ensures r.Ok? ==> Get(root, key) == Some(Arr(r.value))
    ensures r.Err? ==> r.exc == MissingField("list", path, key)
  {
    match Get(root, key)
    case Some(Arr(items)) => Ok(items)
    case _ => Err(MissingField("list", path, key))
  }

  const OnlyOpenAiCompatible: Exc :=
    Exc("RuntimeError", "Only `openai_compatible` provider is supported in this template branch.", false)

  /** The provider check of `load_profile`: the required `provider` string, stripped and
      lower-cased, must be `openai_compatible`. */
  function Provider(llm: Json): (r: Result<string>)
    requires llm.Obj?
    ensures r.Ok? ==> r.value == "openai_compatible"
    ensures r.Ok? <==> (RequiredStr(llm, "provider", "profile.llm").Ok? &&
                        Lower(RequiredStr(llm, "provider", "profile.llm").value) == "openai_compatible")
    ensures r.Err? ==> r.exc == MissingField("string", "profile.llm", "provider") || r.exc == OnlyOpenAiCompatible
  {
    var p :- RequiredStr(llm, "provider", "profile.llm");
    var lower := Lower(p);
    if lower != "openai_compatible" then Err(OnlyOpenAiCompatible) else Ok(lower)
  }

  // ---------------------------------------------------------------------------------------
  // Allowed tags

  /** `summary_raw`: the profile's `summary` when it is a dict, else an empty one. */
  function SummaryRaw(raw: Json): Json {
    var summary := GetOr(raw, "summary", Null);
    if summary.Obj? then summary else Obj([])
  }

  /** The categories of `allowed_tags` kept so far: only list-valued ones, each with the
      non-blank text of its items. */
  function TagsFrom(fields: seq<(string, Json)>): (r: seq<(string, Json)>)
    ensures forall k :: Lookup(r, k).Some? ==>
      Lookup(r, k).value.Arr? && forall i :: 0 <= i < |Lookup(r, k).value.items| ==>
        Lookup(r, k).value.items[i].Str? && !IsBlank(Lookup(r, k).value.items[i].s)
    decreases |fields|
  {
    if |fields| == 0 then []
    else
      var n := |fields| - 1;
      var before := TagsFrom(fields[..n]);
      var (k, v) := fields[n];
      if v.Arr? then
        var tags := BatchMonths.NonBlankTexts(v.items);
        Store(before, k, StrList(tags))
      else before
  }

  /** No list-valued category after the `i`-th carries its name. */
  predicate LastListAt(fields: seq<(string, Json)>, i: int)
    requires 0 <= i < |fields|
  {
    forall j :: i < j < |fields| ==> !(fields[j].0 == fields[i].0 && fields[j].1.Arr?)
  }

  /** The last category either replaces its name's tags or leaves the table as it was. */
  lemma TagsFromLast(fields: seq<(string, Json)>, before: seq<(string, Json)>, after: seq<(string, Json)>)
    requires |fields| > 0
    requires before == TagsFrom(fields[..|fields| - 1]) && after == TagsFrom(fields)
    ensures fields[|fields| - 1].1.Arr? ==>
      after == Store(before, fields[|fields| - 1].0, StrList(BatchMonths.NonBlankTexts(fields[|fields| - 1].1.items)))
    ensures !fields[|fields| - 1].1.Arr? ==> after == before
  {
  }

  /** A list-valued category that is not overridden later holds the non-blank text of the
      items of its list, in order. */
  lemma {:induction false} TagsFromValue(fields: seq<(string, Json)>, i: int)
    requires 0 <= i < |fields| && fields[i].1.Arr? && LastListAt(fields, i)
    ensures Lookup(TagsFrom(fields), fields[i].0) == Some(StrList(BatchMonths.NonBlankTexts(fields[i].1.items)))
    decreases |fields|
  {
    var n := |fields| - 1;
    var before, after := TagsFrom(fields[..n]), TagsFrom(fields);
    TagsFromLast(fields, before, after);
    if i == n {
      var tags := StrList(BatchMonths.NonBlankTexts(fields[n].1.items));
      assert Lookup(after, fields[n].0) == Some(tags);
    } else {
      assert fields[..n][i] == fields[i];
      assert LastListAt(fields[..n], i) by {
        forall j | i < j < n ensures !(fields[..n][j].0 == fields[..n][i].0 && fields[..n][j].1.Arr?) {
          assert fields[..n][j] == fields[j];
        }
      }
      TagsFromValue(fields[..n], i);
      assert !(fields[n].0 == fields[i].0 && fields[n].1.Arr?);
    }
  }

  /** `allowed_tags`: None unless the `summary` section has an `allowed_tags` dict; then each
      list-valued category maps to the non-blank text of its items, and no other key is there. */
  function AllowedTags(raw: Json): (r: Option<seq<(string, Json)>>)
    ensures r.Some? <==> Get(SummaryRaw(raw), "allowed_tags").Some? && Get(SummaryRaw(raw), "allowed_tags").value.Obj?
    ensures r.Some? ==> var fields := Get(SummaryRaw(raw), "allowed_tags").value.fields;
      forall i :: 0 <= i < |fields| && fields[i].1.Arr? && LastListAt(fields, i) ==>
        Lookup(r.value, fields[i].0) == Some(StrList(BatchMonths.NonBlankTexts(fields[i].1.items)))
    ensures r.Some? ==> var fields := Get(SummaryRaw(raw), "allowed_tags").value.fields;
      forall k :: Lookup(r.value, k).Some? ==> exists i :: 0 <= i < |fields| && fields[i].0 == k && fields[i].1.Arr?
  {
    match Get(SummaryRaw(raw), "allowed_tags")
    case Some(Obj(fields)) =>
      forall i | 0 <= i < |fields| && fields[i].1.Arr? && LastListAt(fields, i)
        ensures Lookup(TagsFrom(fields), fields[i].0) == Some(StrList(BatchMonths.NonBlankTexts(fields[i].1.items)))
      {
        TagsFromValue(fields, i);
      }
      forall k | Lookup(TagsFrom(fields), k).Some?
        ensures exists i :: 0 <= i < |fields| && fields[i].0 == k && fields[i].1.Arr?
      {
        TagsFromKeys(fields, k);
      }
      Some(TagsFrom(fields))
    case _ => None
  }

  /** A category is kept exactly when its value is a list, and then holds the non-blank text
      of its items; a category whose value is not a list is dropped. */
  lemma {:induction false} TagsFromKeys(fields: seq<(string, Json)>, k: string)
    ensures Lookup(TagsFrom(fields), k).Some? <==>
      (exists i :: 0 <= i < |fields| && fields[i].0 == k && fields[i].1.Arr?)
    decreases |fields|
  {
    if |fields| > 0 {
      var n := |fields| - 1;
      TagsFromKeys(fields[..n], k);
      if exists i :: 0 <= i < |fields| && fields[i].0 == k && fields[i].1.Arr? {
        var i :| 0 <= i < |fields| && fields[i].0 == k && fields[i].1.Arr?;
        if i < n {
          assert fields[..n][i] == fields[i];
        }
      }
      if exists i :: 0 <= i < n && fields[..n][i].0 == k && fields[..n][i].1.Arr? {
        var i :| 0 <= i < n && fields[..n][i].0 == k && fields[..n][i].1.Arr?;
        assert fields[i] == fields[..n][i];
      }
    }
  }

  /** The filter of `load_profile`, looping over the categories. */
  method AllowedTagsLoop(raw: Json) returns (r: Option<seq<(string, Json)>>)
    ensures r == AllowedTags(raw)
  {
    var given := Get(SummaryRaw(raw), "allowed_tags");
    if !(given.Some? && given.value.Obj?) {
      return None;
    }
    var fields := given.value.fields;
    var tags: seq<(string, Json)> := [];
    var i := 0;
    while i < |fields|
      invariant 0 <= i <= |fields|
      invariant tags == TagsFrom(fields[..i])
    {
      assert fields[..i + 1][..i] == fields[..i];
      var (k, v) := fields[i];
      if v.Arr? {
        tags := Store(tags, k, StrList(BatchMonths.NonBlankTexts(v.items)));
      }
      i := i + 1;
    }
    assert fields[..i] == fields;
    r := Some(tags);
  }

  // ---------------------------------------------------------------------------------------
  // Profile ids

  predicate IsIdChar(c: char) {
    'a' <= c <= 'z' || 'A' <= c <= 'Z' || '0' <= c <= '9' || c == '_' || c == '-'
  }

  predicate AllIdChars(s: string) {
    forall i :: 0 <= i < |s| ==> IsIdChar(s[i])
  }

  /** `re.match(r"^[a-zA-Z0-9_-]+$", s)` as written: Python's `$` also matches just before a
      newline that ends the text, so one trailing newline gets through. */
  predicate ProfileIdAccepted(s: string) {
    (|s| > 0 && AllIdChars(s)) || (|s| > 1 && s[|s| - 1] == '\n' && AllIdChars(s[..|s| - 1]))
  }

  /** The id `init_profile` evidently means to accept: one or more of the allowed characters
      and nothing else. */
  predicate ValidProfileId(s: string) {
    |s| > 0 && AllIdChars(s)
  }

  /** "demo\n" passes the id pattern as written, though a newline is not an allowed character;
      the intended check refuses it. */
  lemma TrailingNewlineAccepted()
    ensures ProfileIdAccepted("demo\n") && !ValidProfileId("demo\n")
  {
    assert "demo\n"[..4] == "demo";
    assert !IsIdChar("demo\n"[4]);
  }

  /** The two checks differ exactly on an id followed by one newline. */
  lemma ProfileIdChecksDiffer(s: string)
    ensures ValidProfileId(s) ==> ProfileIdAccepted(s)
    ensures ProfileIdAccepted(s) && !ValidProfileId(s) <==>
      |s| > 1 && s[|s| - 1] == '\n' && AllIdChars(s[..|s| - 1])
  {
    if |s| > 0 && s[|s| - 1] == '\n' {
      assert !IsIdChar(s[|s| - 1]);
    }
  }
}
