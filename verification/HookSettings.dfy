// Installing and removing Claude Code hooks in settings.json, over abstract JSON
// (hooks.rs, `apply_hook_entries`, `merge_managed_hook`, `uninstall_hooks_result`).

module HookSettings {
  import opened Prelude
  import Quoting

  datatype Json =
    | Null
    | Bool(flag: bool)
    | Num(number: int)
    | Str(text: string)
    | Arr(items: seq<Json>)
    | Obj(fields: map<string, Json>)

  // ── Which blocks are ours ────────────────────────────────────────

  const SHIM: string := "coredeck-hook.sh"
  const REGISTER: string := "coredeck-register.sh"
  const HOOKS_PATH: string := "/hooks/"

  predicate At(s: string, i: nat, part: string) {
    i + |part| <= |s| && s[i..i + |part|] == part
  }

  predicate Contains(s: string, part: string) {
    exists i :: 0 <= i <= |s| && At(s, i, part)
  }

  /** `char::is_whitespace` */
  predicate IsWhitespace(c: char) {
    var n := c as int;
    9 <= n <= 13 || n == 0x20 || n == 0x85 || n == 0xA0 || n == 0x1680 || 0x2000 <= n <= 0x200A
    || n == 0x2028 || n == 0x2029 || n == 0x202F || n == 0x205F || n == 0x3000
  }

  /** Where a URL in serialized text ends. */
  predicate EndsUrl(c: char) { IsWhitespace(c) || c == '"' || c == '\'' || c == '\\' }

  predicate Authority(s: string) {
    forall c :: c in s ==> !EndsUrl(c) && c != '/'
  }

  /** What follows `://` is an authority and then a path under `/hooks/`. */
  predicate HooksUrlAt(rest: string) {
    exists k :: 0 <= k <= |rest| && At(rest, k, HOOKS_PATH) && Authority(rest[..k])
  }

  /** `references_daemon_hook_url` */
  predicate HasHooksUrl(s: string) {
    exists i :: 0 <= i <= |s| && At(s, i, "://") && HooksUrlAt(s[i + 3..])
  }

  function HexDigit(n: nat): char
    requires n < 16
  {
    "0123456789abcdef"[n]
  }

  /** One character as JSON text has it. */
  function JsonChar(c: char): string {
    if c == '"' then "\\\""
    else if c == '\\' then "\\\\"
    else if c as int >= 0x20 then [c]
    else if c as int == 8 then "\\b"
    else if c == '\t' then "\\t"
    else if c == '\n' then "\\n"
    else if c as int == 12 then "\\f"
    else if c == '\r' then "\\r"
    else "\\u00" + [HexDigit(c as int / 16), HexDigit(c as int % 16)]
  }

  /** A string as JSON text has it, without its quotes. */
  function JsonText(s: string): string {
    if s == [] then [] else JsonChar(s[0]) + JsonText(s[1..])
  }

  /** `references_coredeck`, of one serialized string. */
  predicate RefersToUs(s: string) {
    Contains(JsonText(s), SHIM) || Contains(JsonText(s), REGISTER) || HasHooksUrl(JsonText(s))
  }

  /** `references_coredeck`, of a serialized value: some string in it refers to us. Neither a script's name nor a
      URL can span two strings, since a quote stands between them. */
  predicate Mentions(j: Json) {
    match j
    case Str(s) => RefersToUs(s)
    case Arr(items) => exists k :: 0 <= k < |items| && Mentions(items[k])
    case Obj(fields) => exists key :: key in fields && (RefersToUs(key) || Mentions(fields[key]))
    case _ => false
  }

  /** `is_managed_hook_block` */
  predicate Managed(block: Json) {
    && block.Obj? && "hooks" in block.fields && block.fields["hooks"].Arr?
    && exists e :: e in block.fields["hooks"].items && Mentions(e)
  }

  predicate Unmanaged(block: Json) { !Managed(block) }

  /** The blocks of an event that are the user's own. */
  function Strip(blocks: seq<Json>): seq<Json> {
    Filter(blocks, Unmanaged)
  }

  // ── What the installer writes ────────────────────────────────────

  const TOOL_EVENTS: seq<string> := ["PreToolUse", "PostToolUse"]
  const PLAIN_EVENTS: seq<string> := ["Stop", "StopFailure", "Notification", "UserPromptSubmit", "SessionEnd",
                                      "PreCompact", "TaskCreated", "TaskCompleted"]
  const EVENTS: seq<string> := TOOL_EVENTS + ["PermissionRequest"] + PLAIN_EVENTS + ["SessionStart"]

  /** Where the scripts are, and the daemon's address. */
  datatype Install = Install(registerPath: string, shimPath: string, baseUrl: string)

  function Command(text: string): Json {
    Obj(map["type" := Str("command"), "command" := Str(text)])
  }

  function ShimCommand(p: Install, event: string): string {
    Quoting.ShellSingleQuote(p.shimPath) + " " + event
  }

  /** The block for `event`. */
  function Fresh(p: Install, event: string): Json {
    if event in TOOL_EVENTS then
      Obj(map["matcher" := Str("*"), "hooks" := Arr([Command(ShimCommand(p, event))])])
    else if event == "PermissionRequest" then
      Obj(map["matcher" := Str("*"),
              "hooks" := Arr([Obj(map["type" := Str("command"),
                "command" := Str(ShimCommand(p, "PermissionRequest 1800")), "timeout" := Num(1800)])])])
    else if event == "SessionStart" then
      Obj(map["hooks" := Arr([Command(Quoting.ShellSingleQuote(p.registerPath)), Command(ShimCommand(p, event))])])
    else
      Obj(map["hooks" := Arr([Command(ShimCommand(p, event))])])
  }

  const POST: string := "curl -s -m 5 -X POST "
  const STATUSLINE: string := "statusline -H 'Content-Type: application/json' --data-binary @- 2>/dev/null || true"
  const SUBAGENT_STATUSLINE: string :=
    "subagent-statusline -H 'Content-Type: application/json' --data-binary @- >/dev/null 2>&1 || true"

  function PostTo(p: Install, endpoint: string): Json {
    Command(POST + p.baseUrl + (HOOKS_PATH + endpoint))
  }

  function StatusLine(p: Install): Json { PostTo(p, STATUSLINE) }

  function SubagentStatusLine(p: Install): Json { PostTo(p, SUBAGENT_STATUSLINE) }

  // ── Install and uninstall ────────────────────────────────────────

  function HooksOf(s: map<string, Json>): map<string, Json> {
    if "hooks" in s && s["hooks"].Obj? then s["hooks"].fields else map[]
  }

  /** The value of an event after `merge_managed_hook`. */
  function Merged(before: Option<Json>, block: Json): Json {
    if before.Some? && before.value.Arr? then Arr(Strip(before.value.items) + [block]) else Arr([block])
  }

  function Lookup(m: map<string, Json>, key: string): Option<Json> {
    if key in m then Some(m[key]) else None
  }

  /** The hooks after an install: every managed event has our block last, all else is as it was. */
  function InstalledHooks(hooks: map<string, Json>, p: Install): map<string, Json> {
    map e | e in hooks.Keys + Elements(EVENTS) :: if e in EVENTS then Merged(Lookup(hooks, e), Fresh(p, e))
      else hooks[e]
  }

  function Elements<T>(s: seq<T>): set<T> { set x | x in s }

  function Fields(j: Json): map<string, Json> { if j.Obj? then j.fields else map[] }

  /** The settings with the three keys the installer owns. */
  function WithKeys(s: map<string, Json>, hooks: map<string, Json>, line: Json, subline: Json): map<string, Json> {
    s["hooks" := Obj(hooks)]["statusLine" := line]["subagentStatusLine" := subline]
  }

  /** `apply_hook_entries` */
  function Applied(settings: Json, p: Install): Json {
    var s := Fields(settings);
    Obj(WithKeys(s, InstalledHooks(HooksOf(s), p), StatusLine(p), SubagentStatusLine(p)))
  }

  /** An event survives an uninstall unless it is an array with none of the user's blocks. */
  predicate Survives(value: Json) { value.Arr? ==> Strip(value.items) != [] }

  function StrippedHooks(hooks: map<string, Json>): map<string, Json> {
    map e | e in hooks && Survives(hooks[e]) :: if hooks[e].Arr? then Arr(Strip(hooks[e].items)) else hooks[e]
  }

  /** An array that is empty or holds a block of ours. */
  predicate Touched(value: Json) {
    value.Arr? && (value.items == [] || |Strip(value.items)| != |value.items|)
  }

  /** Does the uninstaller find something to remove? */
  predicate Removes(s: map<string, Json>) {
    || (exists e :: e in HooksOf(s) && Touched(HooksOf(s)[e]))
    || ("statusLine" in s && Mentions(s["statusLine"]))
    || ("subagentStatusLine" in s && Mentions(s["subagentStatusLine"]))
  }

  /** The settings without our hooks and status lines. */
  function Cleaned(s: map<string, Json>): map<string, Json> {
    var left := StrippedHooks(HooksOf(s));
    map k | k in s && !(k == "hooks" && s[k].Obj? && left == map[])
      && !((k == "statusLine" || k == "subagentStatusLine") && Mentions(s[k])) ::
      if k == "hooks" && s[k].Obj? then Obj(left) else s[k]
  }

  /** `uninstall_hooks_result`: the file is rewritten only if something was removed. */
  function Uninstalled(settings: Json): Json {
    if settings.Obj? && Removes(settings.fields) then Obj(Cleaned(settings.fields)) else settings
  }

  // ── The installer recognises what it writes ──────────────────────

  lemma ContainsWithin(a: string, part: string, b: string)
    ensures Contains(a + part + b, part)
  {
    assert At(a + part + b, |a|, part);
  }

  lemma {:induction false} NothingToEscape(s: string)
    requires '\'' !in s
    ensures Quoting.Escaped(s) == s
  {
    if s != [] { NothingToEscape(s[1..]); }
  }

  /** Not touched by JSON escaping. */
  predicate Verbatim(s: string) {
    forall c :: c in s ==> c != '"' && c != '\\' && c as int >= 0x20
  }

  lemma {:induction false} VerbatimText(s: string)
    requires Verbatim(s)
    ensures JsonText(s) == s
  {
    if s != [] {
      assert s[0] in s && forall c :: c in s[1..] ==> c in s;
      VerbatimText(s[1..]);
    }
  }

  lemma {:induction false} JsonConcat(a: string, b: string)
    ensures JsonText(a + b) == JsonText(a) + JsonText(b)
  {
    if a == [] {
      assert a + b == b;
    } else {
      assert (a + b)[0] == a[0] && (a + b)[1..] == a[1..] + b;
      JsonConcat(a[1..], b);
      Regroup(JsonChar(a[0]), JsonText(a[1..]), JsonText(b));
    }
  }

  /** Quoting a path, and escaping the command, leaves the script's name in it. */
  lemma QuotedPathRefersToUs(dir: string, script: string, rest: string)
    requires '\'' !in script && Verbatim(script)
    ensures Contains(JsonText(Quoting.ShellSingleQuote(dir + script) + rest), script)
  {
    Quoting.QuotersAgree(dir + script);
    Quoting.EscapedConcat(dir, script);
    NothingToEscape(script);
    VerbatimText(script);
    var lead, tail := "'" + Quoting.Escaped(dir), "'" + rest;
    assert Quoting.ShellSingleQuote(dir + script) + rest == lead + script + tail;
    JsonConcat(lead + script, tail);
    JsonConcat(lead, script);
    ContainsWithin(JsonText(lead), script, JsonText(tail));
  }

  /** The scripts go by their names, and the daemon is at an address. */
  ghost predicate Ours(p: Install) {
    && (exists dir :: p.shimPath == dir + SHIM)
    && (exists address :: p.baseUrl == "http" + "://" + address && Authority(JsonText(address)))
  }

  lemma ShimRefersToUs(p: Install, event: string)
    requires Ours(p)
    ensures RefersToUs(ShimCommand(p, event))
  {
    var dir :| p.shimPath == dir + SHIM;
    ShimNameVerbatim();
    QuotedPathRefersToUs(dir, SHIM, " " + event);
    Regroup(Quoting.ShellSingleQuote(p.shimPath), " ", event);
    hide Contains, JsonText, SHIM;
  }

  lemma ShimNameVerbatim()
    ensures '\'' !in SHIM && Verbatim(SHIM)
  {
  }

  lemma CommandMentions(entry: Json)
    requires entry.Obj? && "command" in entry.fields && entry.fields["command"].Str?
        && RefersToUs(entry.fields["command"].text)
    ensures Mentions(entry)
  {
    assert Mentions(entry.fields["command"]);
  }

  /** Every block the installer writes is recognised as ours. */
  lemma FreshIsManaged(p: Install, event: string)
    requires Ours(p)
    ensures Managed(Fresh(p, event))
  {
    var block := Fresh(p, event);
    var entries := block.fields["hooks"].items;
    ShimRefersToUs(p, event);
    ShimRefersToUs(p, "PermissionRequest 1800");
    hide RefersToUs, ShimCommand;
    var last := entries[|entries| - 1];
    CommandMentions(last);
    assert last in entries;
  }

  // ── What is recognised, as the daemon goes about it ──────────────

  /** `str::find`: the first character that is, or is not, a slash or the end of a URL; the length if there is none. */
  function FirstEnd(s: string): (k: nat)
    ensures k <= |s| && (k < |s| ==> EndsUrl(s[k]))
    ensures forall j :: 0 <= j < k ==> !EndsUrl(s[j])
  {
    if s == [] || EndsUrl(s[0]) then 0 else 1 + FirstEnd(s[1..])
  }

  function FirstSlash(s: string): (k: nat)
    ensures k <= |s| && (k < |s| ==> s[k] == '/')
    ensures forall j :: 0 <= j < k ==> s[j] != '/'
  {
    if s == [] || s[0] == '/' then 0 else 1 + FirstSlash(s[1..])
  }

  /** Cut off the URL, find its path, and look how that begins. */
  predicate PathUnderHooks(rest: string) {
    var url := rest[..FirstEnd(rest)];
    HOOKS_PATH <= url[FirstSlash(url)..]
  }

  lemma HooksPathIsPlain(i: nat)
    requires i < |HOOKS_PATH|
    ensures !EndsUrl(HOOKS_PATH[i]) && HOOKS_PATH[0] == '/'
  {
  }

  lemma CutOffThenFound(rest: string)
    requires PathUnderHooks(rest)
    ensures HooksUrlAt(rest)
  {
    hide EndsUrl;
    var url := rest[..FirstEnd(rest)];
    var path := FirstSlash(url);
    assert path + |HOOKS_PATH| <= |url|;
    assert url[path..][..|HOOKS_PATH|] == HOOKS_PATH;
    assert rest[path..path + |HOOKS_PATH|] == url[path..][..|HOOKS_PATH|];
    assert At(rest, path, HOOKS_PATH);
    assert forall j :: 0 <= j < path ==> rest[..path][j] == url[j];
    assert Authority(rest[..path]);
  }

  lemma FoundIsInUrl(rest: string, k: nat)
    requires k <= |rest| && At(rest, k, HOOKS_PATH) && Authority(rest[..k])
    ensures k + |HOOKS_PATH| <= FirstEnd(rest)
  {
    hide EndsUrl;
    forall j | 0 <= j < k + |HOOKS_PATH| ensures !EndsUrl(rest[j]) {
      if j < k {
        assert rest[..k][j] == rest[j] && rest[j] in rest[..k];
      } else {
        assert rest[j] == rest[k..k + |HOOKS_PATH|][j - k] == HOOKS_PATH[j - k];
        HooksPathIsPlain(j - k);
      }
    }
  }

  lemma FoundThenCutOff(rest: string, k: nat)
    requires k <= |rest| && At(rest, k, HOOKS_PATH) && Authority(rest[..k])
    ensures PathUnderHooks(rest)
  {
    FoundIsInUrl(rest, k);
    HooksPathIsPlain(0);
    hide EndsUrl;
    var url := rest[..FirstEnd(rest)];
    assert rest[k] == rest[k..k + |HOOKS_PATH|][0];
    assert forall j :: 0 <= j < k ==> rest[..k][j] == url[j] && rest[..k][j] in rest[..k];
    assert FirstSlash(url) == k;
    assert url[k..][..|HOOKS_PATH|] == rest[k..k + |HOOKS_PATH|];
  }

  /** Cutting the URL off and finding its path comes to the same: some authority, and then `/hooks/`. */
  lemma HooksUrlIsCutOff(rest: string)
    ensures HooksUrlAt(rest) <==> PathUnderHooks(rest)
  {
    hide PathUnderHooks, At, Authority;
    if PathUnderHooks(rest) { CutOffThenFound(rest); }
    if HooksUrlAt(rest) {
      var k :| 0 <= k <= |rest| && At(rest, k, HOOKS_PATH) && Authority(rest[..k]);
      FoundThenCutOff(rest, k);
    }
  }

  /** The user's own scripts under some `hooks` directory are not taken for ours: it takes a URL, or a script's name. */
  lemma LocalPathsAreTheUsers(s: string)
    requires Verbatim(s) && !Contains(s, "://") && !Contains(s, SHIM) && !Contains(s, REGISTER)
    ensures !RefersToUs(s) && !Mentions(Command(s))
  {
    NoUrl(s);
    ShortIsTheUsers("type");
    ShortIsTheUsers("command");
    hide RefersToUs;
    assert Command(s).fields.Keys == {"type", "command"};
  }

  lemma NoUrl(s: string)
    requires Verbatim(s) && !Contains(s, "://") && !Contains(s, SHIM) && !Contains(s, REGISTER)
    ensures !RefersToUs(s)
  {
    VerbatimText(s);
    hide JsonText, HooksUrlAt, Verbatim, At;
  }

  lemma ShortIsTheUsers(s: string)
    requires Verbatim(s) && |s| < 10
    ensures !RefersToUs(s)
  {
    VerbatimText(s);
    assert |SHIM| >= 10 && |REGISTER| >= 10 && |HOOKS_PATH| == 7;
    hide JsonText, EndsUrl, Verbatim;
  }

  /** The string `s` is somewhere in `j`, as a key or a value. */
  predicate Has(j: Json, s: string) {
    match j
    case Str(text) => text == s
    case Arr(items) => exists k :: 0 <= k < |items| && Has(items[k], s)
    case Obj(fields) => exists key :: key in fields && (key == s || Has(fields[key], s))
    case _ => false
  }

  /** A value is ours if and only if some string in it is, however deep. */
  lemma {:induction false} MentionsSomeString(j: Json)
    ensures Mentions(j) <==> exists s :: Has(j, s) && RefersToUs(s)
  {
    hide RefersToUs;
    match j {
      case Arr(items) =>
        forall k | 0 <= k < |items| ensures Mentions(items[k]) <==> exists s :: Has(items[k], s) && RefersToUs(s) {
          MentionsSomeString(items[k]);
        }
      case Obj(fields) =>
        forall key | key in fields
          ensures Mentions(fields[key]) <==> exists s :: Has(fields[key], s) && RefersToUs(s)
        {
          MentionsSomeString(fields[key]);
        }
      case _ =>
    }
  }

  function HexValue(c: char): Option<nat> {
    if '0' <= c <= '9' then Some(c as int - '0' as int)
    else if 'a' <= c <= 'f' then Some(c as int - 'a' as int + 10)
    else if 'A' <= c <= 'F' then Some(c as int - 'A' as int + 10)
    else None
  }

  function Escape(c: char): Option<char> {
    match c
    case '"' => Some('"')
    case '\\' => Some('\\')
    case '/' => Some('/')
    case 'b' => Some(8 as char)
    case 'f' => Some(12 as char)
    case 'n' => Some('\n')
    case 'r' => Some('\r')
    case 't' => Some('\t')
    case _ => None
  }

  /** What a JSON string without its quotes stands for (RFC 8259, section 7), as far as Latin-1 escapes go. */
  function JsonRead(t: string): Option<string> {
    if t == [] then Some([])
    else if t[0] != '\\' then
      if t[0] == '"' || t[0] as int < 0x20 then None
      else match JsonRead(t[1..]) case None => None case Some(rest) => Some([t[0]] + rest)
    else if |t| >= 2 && Escape(t[1]).Some? then
      match JsonRead(t[2..]) case None => None case Some(rest) => Some([Escape(t[1]).value] + rest)
    else if |t| >= 6 && t[1] == 'u' && t[2] == '0' && t[3] == '0' && HexValue(t[4]).Some? && HexValue(t[5]).Some? then
      var c := (HexValue(t[4]).value * 16 + HexValue(t[5]).value) as char;
      match JsonRead(t[6..]) case None => None case Some(rest) => Some([c] + rest)
    else None
  }

  lemma CharacterRead(c: char, tail: string)
    ensures JsonRead(JsonChar(c) + tail) == match JsonRead(tail) case None => None case Some(rest) => Some([c] + rest)
  {
    var t := JsonChar(c) + tail;
    if |JsonChar(c)| == 6 {
      ControlRead(c, tail);
    } else if |JsonChar(c)| == 2 {
      assert t[2..] == tail && t[0] == JsonChar(c)[0] && t[1] == JsonChar(c)[1];
    } else {
      assert t[1..] == tail && t[0] == c;
    }
    hide HexValue;
  }

  lemma ControlRead(c: char, tail: string)
    requires |JsonChar(c)| == 6
    ensures JsonRead(JsonChar(c) + tail) == match JsonRead(tail) case None => None case Some(rest) => Some([c] + rest)
  {
    var t := JsonChar(c) + tail;
    HexRead(c as int / 16);
    HexRead(c as int % 16);
    assert forall k :: 0 <= k < 6 ==> t[k] == JsonChar(c)[k];
    assert t[6..] == tail;
    hide HexValue, HexDigit;
  }

  lemma HexRead(n: nat)
    requires n < 16
    ensures HexValue(HexDigit(n)) == Some(n)
  {
  }

  /** The JSON text of a string stands for that string. */
  lemma {:induction false} JsonTextReadsBack(s: string)
    ensures JsonRead(JsonText(s)) == Some(s)
  {
    if s != [] {
      CharacterRead(s[0], JsonText(s[1..]));
      JsonTextReadsBack(s[1..]);
      assert [s[0]] + s[1..] == s;
    }
  }

  // ── What the installed commands run ──────────────────────────────

  /** The words the shell makes of an entry's command line. */
  function Words(entry: Json): Option<seq<string>> {
    if entry.Obj? && "command" in entry.fields && entry.fields["command"].Str?
    then Quoting.Fields(entry.fields["command"].text, None) else None
  }

  predicate Alphanumeric(c: char) { 'A' <= c <= 'Z' || 'a' <= c <= 'z' || '0' <= c <= '9' }

  /** Stands for itself, unquoted. */
  predicate PlainWord(s: string) {
    forall c :: c in s ==> Alphanumeric(c)
  }

  lemma PlainCharacter(c: char)
    requires Alphanumeric(c)
    ensures !Quoting.Special(c) && c !in {' ', '\t', '\'', '\\'}
  {
  }

  lemma {:induction false} PlainRead(s: string, word: string, rest: string)
    requires PlainWord(s)
    ensures Quoting.Fields(s + rest, Some(word)) == Quoting.Fields(rest, Some(word + s))
    decreases |s|
  {
    if s == [] {
      assert s + rest == rest && word + s == word;
    } else {
      assert s[0] in s && forall c :: c in s[1..] ==> c in s;
      assert (s + rest)[0] == s[0] && (s + rest)[1..] == s[1..] + rest;
      assert word + [s[0]] + s[1..] == word + s;
      PlainCharacter(s[0]);
      hide Quoting.Special, Alphanumeric;
      PlainRead(s[1..], word + [s[0]], rest);
    }
  }

  /** A plain word after a space is a word of its own. */
  lemma NextWord(word: string, s: string, rest: string)
    requires PlainWord(s) && s != [] && (rest == [] || rest[0] == ' ')
    ensures Quoting.Fields([' '] + s + rest, Some(word))
         == match Quoting.Fields(rest, Some(s)) case None => None case Some(more) => Some([word] + more)
  {
    var line := [' '] + s + rest;
    assert line[0] == ' ' && line[1..] == s + rest;
    assert s[0] in s && forall c :: c in s[1..] ==> c in s;
    assert (s + rest)[0] == s[0] && (s + rest)[1..] == s[1..] + rest;
    assert [s[0]] + s[1..] == s && "" + [s[0]] == [s[0]];
    PlainCharacter(s[0]);
    hide Quoting.Special, Alphanumeric;
    assert Quoting.Fields(s + rest, None) == Quoting.Fields(s[1..] + rest, Some([s[0]]));
    PlainRead(s[1..], [s[0]], rest);
  }

  lemma PathFirst(path: string, rest: string)
    ensures Quoting.Fields(Quoting.ShellSingleQuote(path) + rest, None) == Quoting.Fields(rest, Some(path))
  {
    Quoting.QuotersAgree(path);
    Quoting.QuotedRead(path, rest);
  }

  /** The shim is run by its path, wherever that is, with the event as its argument. */
  lemma ShimRuns(p: Install, event: string)
    requires PlainWord(event) && event != []
    ensures Quoting.Fields(ShimCommand(p, event), None) == Some([p.shimPath, event])
  {
    var rest := [' '] + event + [];
    PathFirst(p.shimPath, rest);
    assert ShimCommand(p, event) == Quoting.ShellSingleQuote(p.shimPath) + rest;
    NextWord(p.shimPath, event, []);
    assert Quoting.Fields([], Some(event)) == Some([event]);
    assert [p.shimPath] + [event] == [p.shimPath, event];
    hide Quoting.Fields, ShimCommand, PlainWord;
  }

  /** So with a time limit behind it. */
  lemma TimedShimRuns(p: Install, event: string, limit: string)
    requires PlainWord(event) && event != [] && PlainWord(limit) && limit != []
    ensures Quoting.Fields(ShimCommand(p, event + " " + limit), None) == Some([p.shimPath, event, limit])
  {
    var tail := [' '] + limit + [];
    var rest := [' '] + event + tail;
    PathFirst(p.shimPath, rest);
    assert ShimCommand(p, event + " " + limit) == Quoting.ShellSingleQuote(p.shimPath) + rest;
    NextWord(p.shimPath, event, tail);
    NextWord(event, limit, []);
    assert Quoting.Fields([], Some(limit)) == Some([limit]);
    assert [event] + [limit] == [event, limit] && [p.shimPath] + [event, limit] == [p.shimPath, event, limit];
    hide Quoting.Fields, ShimCommand, PlainWord;
  }

  lemma RegisterRuns(p: Install)
    ensures Quoting.Fields(Quoting.ShellSingleQuote(p.registerPath), None) == Some([p.registerPath])
  {
    Quoting.QuotersAgree(p.registerPath);
    Quoting.QuotedRead(p.registerPath, []);
    Unit(Quoting.Quoted(p.registerPath));
  }

  /** The events the daemon listens to. */
  predicate Listened(event: string) {
    event in {"PreToolUse", "PostToolUse", "PermissionRequest", "SessionStart", "SessionEnd", "UserPromptSubmit",
              "Notification", "Stop", "StopFailure", "PreCompact", "TaskCreated", "TaskCompleted"}
  }

  /** Our block of an event runs the shim with the event's name; a permission request has half an hour, and a session
      start is registered first. Only the events of tools take a matcher, and it matches every tool. */
  predicate RunsShim(p: Install, event: string, block: Json) {
    && block.Obj? && "hooks" in block.fields && block.fields["hooks"].Arr?
    && ("matcher" in block.fields <==> event in {"PreToolUse", "PostToolUse", "PermissionRequest"})
    && ("matcher" in block.fields ==> block.fields["matcher"] == Str("*"))
    && var entries := block.fields["hooks"].items;
       if event == "PermissionRequest" then
         && |entries| == 1 && Words(entries[0]) == Some([p.shimPath, event, "1800"])
         && "timeout" in entries[0].fields && entries[0].fields["timeout"] == Num(1800)
       else if event == "SessionStart" then
         |entries| == 2 && Words(entries[0]) == Some([p.registerPath]) && Words(entries[1]) == Some([p.shimPath, event])
       else |entries| == 1 && Words(entries[0]) == Some([p.shimPath, event])
  }

  lemma FreshRunsShim(p: Install, event: string)
    requires Listened(event)
    ensures RunsShim(p, event, Fresh(p, event))
  {
    EventsArePlain(event);
    ShimRuns(p, event);
    RegisterRuns(p);
    if event == "PermissionRequest" {
      assert PlainWord("1800");
      TimedShimRuns(p, event, "1800");
      assert event + " " + "1800" == "PermissionRequest 1800";
    }
    hide Quoting.Fields, ShimCommand, Quoting.ShellSingleQuote, PlainWord;
  }

  lemma EventsArePlain(event: string)
    requires Listened(event)
    ensures PlainWord(event) && event != []
  {
  }

  lemma ListenedEvents(event: string)
    ensures Listened(event) <==> event in EVENTS
  {
  }

  /** After an install each of the twelve events, and no other, ends in a block of ours: read by the shell, its commands
      are the script's path, whatever characters that has, and the event's name. */
  lemma InstalledHooksRun(settings: Json, p: Install, event: string)
    ensures var hooks := HooksOf(Fields(Applied(settings, p)));
            if Listened(event) then
              && event in hooks && hooks[event].Arr? && hooks[event].items != []
              && RunsShim(p, event, hooks[event].items[|hooks[event].items| - 1])
            else Lookup(hooks, event) == Lookup(HooksOf(Fields(settings)), event)
  {
    ListenedEvents(event);
    if Listened(event) { FreshRunsShim(p, event); }
    hide Fresh, RunsShim, EVENTS, Strip;
  }

  lemma UrlFound(lead: string, authority: string, path: string)
    requires Authority(authority)
    ensures HasHooksUrl(lead + ("http" + "://" + authority) + (HOOKS_PATH + path))
  {
    var s := lead + ("http" + "://" + authority) + (HOOKS_PATH + path);
    var i := |lead + "http"|;
    assert At(s, i, "://");
    var rest := s[i + 3..];
    assert rest == authority + (HOOKS_PATH + path);
    assert At(rest, |authority|, HOOKS_PATH) && rest[..|authority|] == authority;
  }

  lemma UrlRefersToUs(lead: string, address: string, path: string)
    requires Authority(JsonText(address))
    ensures HasHooksUrl(JsonText(lead + ("http" + "://" + address) + (HOOKS_PATH + path)))
  {
    UrlText(lead, address, path);
    UrlFound(JsonText(lead), JsonText(address), JsonText(path));
    hide HasHooksUrl, JsonText, HOOKS_PATH;
  }

  lemma UrlText(lead: string, address: string, path: string)
    ensures JsonText(lead + ("http" + "://" + address) + (HOOKS_PATH + path))
         == JsonText(lead) + ("http" + "://" + JsonText(address)) + (HOOKS_PATH + JsonText(path))
  {
    var scheme := "http" + "://";
    assert Verbatim(scheme) && Verbatim(HOOKS_PATH);
    VerbatimText(scheme);
    VerbatimText(HOOKS_PATH);
    hide JsonText, HOOKS_PATH, Verbatim;
    JsonConcat(lead + (scheme + address), HOOKS_PATH + path);
    JsonConcat(lead, scheme + address);
    JsonConcat(scheme, address);
    JsonConcat(HOOKS_PATH, path);
  }

  /** Whatever we post to, the command is recognised as ours. */
  lemma PostMentions(p: Install, endpoint: string)
    requires Ours(p)
    ensures Mentions(PostTo(p, endpoint))
  {
    var address :| p.baseUrl == "http" + "://" + address && Authority(JsonText(address));
    UrlRefersToUs(POST, address, endpoint);
    hide HasHooksUrl, POST, JsonText;
    CommandMentions(PostTo(p, endpoint));
  }

  // ── Closed forms ─────────────────────────────────────────────────

  lemma StripFresh(blocks: seq<Json>, block: Json)
    requires Managed(block)
    ensures Strip(Strip(blocks) + [block]) == Strip(blocks)
  {
    FilterConcat(Strip(blocks), [block], Unmanaged);
    FilterAll(Strip(blocks), Unmanaged);
    assert Filter([block], Unmanaged) == [];
  }

  /** Merging twice is merging once, with the later block. */
  lemma MergedTwice(before: Option<Json>, first: Json, second: Json)
    requires Managed(first)
    ensures Merged(Some(Merged(before, first)), second) == Merged(before, second)
  {
    if before.Some? && before.value.Arr? {
      StripFresh(before.value.items, first);
    } else {
      StripFresh([], first);
      assert Strip([]) + [first] == [first];
    }
  }

  lemma HooksInstalledTwice(hooks: map<string, Json>, p: Install, q: Install)
    requires Ours(p)
    ensures InstalledHooks(InstalledHooks(hooks, p), q) == InstalledHooks(hooks, q)
  {
    var once := InstalledHooks(hooks, p);
    forall e | e in EVENTS ensures Merged(Lookup(once, e), Fresh(q, e)) == Merged(Lookup(hooks, e), Fresh(q, e)) {
      FreshIsManaged(p, e);
      MergedTwice(Lookup(hooks, e), Fresh(p, e), Fresh(q, e));
    }
    hide Merged, Fresh, EVENTS;
  }

  /** Installing again, be it for another address, leaves exactly what a first install would: nothing piles up. */
  lemma InstallIdempotent(settings: Json, p: Install, q: Install)
    requires Ours(p)
    ensures Applied(Applied(settings, p), q) == Applied(settings, q)
  {
    var s := Fields(settings);
    var h1, h2 := InstalledHooks(HooksOf(s), p), InstalledHooks(HooksOf(s), q);
    HooksInstalledTwice(HooksOf(s), p, q);
    KeysTwice(s, h1, StatusLine(p), SubagentStatusLine(p), h2, StatusLine(q), SubagentStatusLine(q));
    hide InstalledHooks, StatusLine, SubagentStatusLine, WithKeys, HooksOf;
  }

  lemma KeysDiffer()
    ensures "hooks" != "statusLine" && "hooks" != "subagentStatusLine" && "statusLine" != "subagentStatusLine"
  {
    assert |"hooks"| != |"statusLine"| && |"hooks"| != |"subagentStatusLine"|
      && |"statusLine"| != |"subagentStatusLine"|;
  }

  lemma WrittenTwice(s: map<string, Json>, k1: string, k2: string, k3: string, a: seq<Json>, b: seq<Json>)
    requires k1 != k2 && k1 != k3 && k2 != k3 && |a| == |b| == 3
    ensures s[k1 := a[0]][k2 := a[1]][k3 := a[2]][k1 := b[0]][k2 := b[1]][k3 := b[2]]
        == s[k1 := b[0]][k2 := b[1]][k3 := b[2]]
    ensures s[k1 := a[0]][k2 := a[1]][k3 := a[2]][k1] == a[0]
  {
  }

  lemma KeysTwice(s: map<string, Json>, h1: map<string, Json>, a1: Json, b1: Json, h2: map<string, Json>, a2: Json,
      b2: Json)
    ensures HooksOf(WithKeys(s, h1, a1, b1)) == h1
        && WithKeys(WithKeys(s, h1, a1, b1), h2, a2, b2) == WithKeys(s, h2, a2, b2)
  {
    KeysDiffer();
    WrittenTwice(s, "hooks", "statusLine", "subagentStatusLine", [Obj(h1), a1, b1], [Obj(h2), a2, b2]);
  }

  // ── Uninstalling what was installed ──────────────────────────────

  /** What an install and an uninstall leave of the hooks: events that were not an array where we need one
      are lost, and so are events without a block of the user's own. */
  predicate Kept(hooks: map<string, Json>, e: string) {
    e in hooks && Survives(hooks[e]) && (e in EVENTS ==> hooks[e].Arr?)
  }

  function LeftOf(hooks: map<string, Json>): map<string, Json> {
    map e | e in hooks && Kept(hooks, e) :: if hooks[e].Arr? then Arr(Strip(hooks[e].items)) else hooks[e]
  }

  lemma StripIdempotent(blocks: seq<Json>)
    ensures Strip(Strip(blocks)) == Strip(blocks)
  {
    FilterAll(Strip(blocks), Unmanaged);
  }

  /** One event, installed and stripped again. */
  lemma EventRestored(hooks: map<string, Json>, e: string, p: Install)
    requires Ours(p) && e in EVENTS
    ensures var v := Merged(Lookup(hooks, e), Fresh(p, e));
            && v.Arr? && (Survives(v) <==> Kept(hooks, e))
            && (Kept(hooks, e) ==> Strip(v.items) == Strip(hooks[e].items))
  {
    FreshIsManaged(p, e);
    if e in hooks && hooks[e].Arr? {
      StripFresh(hooks[e].items, Fresh(p, e));
    } else {
      StripFresh([], Fresh(p, e));
      assert Strip([]) + [Fresh(p, e)] == [Fresh(p, e)];
    }
  }

  lemma HooksRestored(hooks: map<string, Json>, p: Install)
    requires Ours(p)
    ensures StrippedHooks(InstalledHooks(hooks, p)) == LeftOf(hooks)
  {
    var installed := InstalledHooks(hooks, p);
    forall e | e in EVENTS ensures Survives(installed[e]) <==> Kept(hooks, e)
      ensures installed[e].Arr? && (Kept(hooks, e) ==> Strip(installed[e].items) == Strip(hooks[e].items))
    {
      EventRestored(hooks, e, p);
    }
    hide Merged, Fresh, EVENTS, Survives, Strip;
    assert forall e :: e in StrippedHooks(installed) <==> e in LeftOf(hooks);
  }

  function WithoutKeys(s: map<string, Json>): map<string, Json> {
    s - {"hooks", "statusLine", "subagentStatusLine"}
  }

  /** The closed form of uninstall after install. */
  lemma UninstallAfterInstall(settings: Json, p: Install)
    requires Ours(p)
    ensures var left := LeftOf(HooksOf(Fields(settings)));
            Uninstalled(Applied(settings, p))
            == Obj(if left == map[] then WithoutKeys(Fields(settings))
              else WithoutKeys(Fields(settings))["hooks" := Obj(left)])
  {
    var s := Fields(settings);
    var h := InstalledHooks(HooksOf(s), p);
    HooksRestored(HooksOf(s), p);
    PostMentions(p, STATUSLINE);
    PostMentions(p, SUBAGENT_STATUSLINE);
    CleanedKeys(s, h, StatusLine(p), SubagentStatusLine(p));
    hide InstalledHooks, LeftOf, PostTo, StrippedHooks, Mentions;
  }

  lemma CleanedKeys(s: map<string, Json>, h: map<string, Json>, line: Json, subline: Json)
    requires Mentions(line) && Mentions(subline)
    ensures var r, left := WithKeys(s, h, line, subline), StrippedHooks(h);
            Removes(r) && Cleaned(r) == if left == map[] then WithoutKeys(s) else WithoutKeys(s)["hooks" := Obj(left)]
  {
    hide Mentions, StrippedHooks;
    var r := WithKeys(s, h, line, subline);
    assert |"hooks"| != |"statusLine"| && |"hooks"| != |"subagentStatusLine"|
      && |"statusLine"| != |"subagentStatusLine"|;
    assert r["hooks"] == Obj(h) && r["statusLine"] == line && r["subagentStatusLine"] == subline;
    assert HooksOf(r) == h;
  }

  /** Settings an install and an uninstall give back as they were. */
  ghost predicate Restorable(settings: Json) {
    && settings.Obj? && "statusLine" !in settings.fields && "subagentStatusLine" !in settings.fields
    && ("hooks" in settings.fields ==>
          && settings.fields["hooks"].Obj? && settings.fields["hooks"].fields != map[]
          && forall e :: e in settings.fields["hooks"].fields ==> Plain(e, settings.fields["hooks"].fields[e]))
  }

  /** An event value with blocks, none of them ours, in an array if it is an event we use. */
  predicate Plain(event: string, value: Json) {
    && (value.Arr? ==> value.items != [] && forall b :: b in value.items ==> !Managed(b))
    && (event in EVENTS ==> value.Arr?)
  }

  lemma PlainIsKept(hooks: map<string, Json>, e: string)
    requires e in hooks
    ensures Plain(e, hooks[e]) <==> Kept(hooks, e) && (hooks[e].Arr? ==> Strip(hooks[e].items) == hooks[e].items)
  {
    if hooks[e].Arr? {
      if forall b :: b in hooks[e].items ==> !Managed(b) { FilterAll(hooks[e].items, Unmanaged); }
    }
  }

  lemma LeftIsAll(hooks: map<string, Json>)
    ensures LeftOf(hooks) == hooks <==> forall e :: e in hooks ==> Plain(e, hooks[e])
  {
    forall e | e in hooks ensures Plain(e, hooks[e])
      <==> Kept(hooks, e) && (hooks[e].Arr? ==> Strip(hooks[e].items) == hooks[e].items) {
      PlainIsKept(hooks, e);
    }
    hide Plain, Kept, Strip;
    if LeftOf(hooks) == hooks {
      forall e | e in hooks ensures Plain(e, hooks[e]) {
        assert e in LeftOf(hooks);
        assert LeftOf(hooks)[e] == hooks[e];
      }
    }
  }

  /** Installing and uninstalling restores the settings if and only if they are an object without status lines,
      whose hooks, if it has any, are a non-empty object of events with no empty array, no block of ours and
      nothing but an array where we need one. */
  lemma UninstallRestores(settings: Json, p: Install)
    requires Ours(p)
    ensures Uninstalled(Applied(settings, p)) == settings <==> Restorable(settings)
  {
    UninstallAfterInstall(settings, p);
    LeftIsAll(HooksOf(Fields(settings)));
    hide Uninstalled, Applied, LeftOf, Plain;
    if settings.Obj? { RestoredKeys(settings.fields, LeftOf(HooksOf(settings.fields))); }
    assert LeftOf(map[]) == map[] by { assert LeftOf(map[]).Keys == {}; }
  }

  lemma RestoredKeys(s: map<string, Json>, left: map<string, Json>)
    ensures (if left == map[] then WithoutKeys(s) else WithoutKeys(s)["hooks" := Obj(left)]) == s
       <==> && "statusLine" !in s && "subagentStatusLine" !in s
            && if "hooks" in s then left != map[] && s["hooks"] == Obj(left) else left == map[]
  {
    assert |"hooks"| != |"statusLine"| && |"hooks"| != |"subagentStatusLine"|;
    var r := if left == map[] then WithoutKeys(s) else WithoutKeys(s)["hooks" := Obj(left)];
    if "hooks" in s { assert r == s ==> "hooks" in r; }
  }

  // ── Any sequence of installs and uninstalls ──────────────────────

  datatype Change = Installs(p: Install) | Uninstalls

  function Changed(settings: Json, c: Change): Json {
    match c
    case Installs(p) => Applied(settings, p)
    case Uninstalls => Uninstalled(settings)
  }

  function ChangedAll(settings: Json, cs: seq<Change>): Json
    decreases |cs|
  {
    if cs == [] then settings else ChangedAll(Changed(settings, cs[0]), cs[1..])
  }

  /** The user's own blocks for an event, in order. */
  function UserBlocks(settings: Json, e: string): seq<Json> {
    var hooks := HooksOf(Fields(settings));
    if e in hooks && hooks[e].Arr? then Strip(hooks[e].items) else []
  }

  lemma InstallKeepsBlocks(settings: Json, p: Install, e: string)
    requires Ours(p)
    ensures UserBlocks(Applied(settings, p), e) == UserBlocks(settings, e)
  {
    var s := Fields(settings);
    var h := InstalledHooks(HooksOf(s), p);
    KeysTwice(s, h, StatusLine(p), SubagentStatusLine(p), h, StatusLine(p), SubagentStatusLine(p));
    if e in EVENTS { EventRestored(HooksOf(s), e, p); FreshIsManaged(p, e); StripFresh([], Fresh(p, e)); }
    hide WithKeys, StatusLine, SubagentStatusLine, Fresh, EVENTS, HooksOf;
    if e in HooksOf(s) && HooksOf(s)[e].Arr? && e in EVENTS {
      StripFresh(HooksOf(s)[e].items, Fresh(p, e));
    } else if e in EVENTS {
      assert Strip([]) + [Fresh(p, e)] == [Fresh(p, e)];
    }
  }

  lemma UninstallKeepsBlocks(settings: Json, e: string)
    ensures UserBlocks(Uninstalled(settings), e) == UserBlocks(settings, e)
  {
    if settings.Obj? && Removes(settings.fields) {
      var s := settings.fields;
      CleanedHooks(s);
      if e in HooksOf(s) && HooksOf(s)[e].Arr? { StripIdempotent(HooksOf(s)[e].items); }
      hide Cleaned, HooksOf, Removes;
    }
  }

  lemma CleanedHooks(s: map<string, Json>)
    ensures HooksOf(Cleaned(s)) == StrippedHooks(HooksOf(s))
  {
    assert |"hooks"| != |"statusLine"| && |"hooks"| != |"subagentStatusLine"|;
    hide StrippedHooks, Mentions;
    if "hooks" in s && s["hooks"].Obj? {
    } else {
      NoHooks();
    }
  }

  lemma NoHooks()
    ensures StrippedHooks(map[]) == map[]
  {
    assert StrippedHooks(map[]).Keys == {};
  }

  /** Under any sequence of installs and uninstalls, from any settings, every event keeps the user's own blocks,
      in order. */
  lemma {:induction false} UserBlocksKept(settings: Json, cs: seq<Change>, e: string)
    requires forall c :: c in cs && c.Installs? ==> Ours(c.p)
    ensures UserBlocks(ChangedAll(settings, cs), e) == UserBlocks(settings, e)
    decreases |cs|
  {
    if cs != [] {
      assert cs[0] in cs && forall c :: c in cs[1..] ==> c in cs;
      match cs[0] {
        case Installs(p) => InstallKeepsBlocks(settings, p, e);
        case Uninstalls => UninstallKeepsBlocks(settings, e);
      }
      hide UserBlocks, Applied, Uninstalled, Ours;
      UserBlocksKept(Changed(settings, cs[0]), cs[1..], e);
    }
  }

  // ── The merge as it runs ─────────────────────────────────────────

  lemma StripSnoc(blocks: seq<Json>, k: nat)
    requires k < |blocks|
    ensures Strip(blocks[..k + 1]) == Strip(blocks[..k]) + (if Managed(blocks[k]) then [] else [blocks[k]])
  {
    assert blocks[..k + 1] == blocks[..k] + [blocks[k]];
    FilterConcat(blocks[..k], [blocks[k]], Unmanaged);
    assert Filter([blocks[k]], Unmanaged) == if Managed(blocks[k]) then [] else [blocks[k]];
  }

  /** The hooks once the events of `EVENTS[..n]` are merged. */
  function PartInstalled(hooks: map<string, Json>, p: Install, n: nat): map<string, Json>
    requires n <= |EVENTS|
  {
    map e | e in hooks.Keys + Elements(EVENTS[..n]) :: if e in EVENTS[..n] then Merged(Lookup(hooks, e), Fresh(p, e))
      else hooks[e]
  }

  lemma EventsDiffer()
    ensures forall i, j :: 0 <= i < j < |EVENTS| ==> EVENTS[i] != EVENTS[j]
  {
  }

  lemma PartGrows(hooks: map<string, Json>, p: Install, n: nat)
    requires n < |EVENTS|
    ensures var part, e := PartInstalled(hooks, p, n), EVENTS[n];
            PartInstalled(hooks, p, n + 1) == part[e := Merged(Lookup(part, e), Fresh(p, e))]
  {
    EventsDiffer();
    hide Merged, Fresh, EVENTS;
    var part, e := PartInstalled(hooks, p, n), EVENTS[n];
    assert EVENTS[..n + 1] == EVENTS[..n] + [e];
    assert e !in EVENTS[..n];
    assert Lookup(part, e) == Lookup(hooks, e);
    assert PartInstalled(hooks, p, n + 1).Keys == part.Keys + {e};
  }

  /** The hooks once all events but `todo` are stripped. */
  function PartStripped(hooks: map<string, Json>, todo: set<string>): map<string, Json> {
    map e | e in hooks :: if e !in todo && hooks[e].Arr? then Arr(Strip(hooks[e].items)) else hooks[e]
  }

  predicate LeavesNone(value: Json) { value.Arr? && Strip(value.items) == [] }

  predicate Shrinks(value: Json) { value.Arr? && |Strip(value.items)| != |value.items| }

  lemma OneStripped(hooks: map<string, Json>, todo: set<string>, key: string)
    requires key in todo && todo <= hooks.Keys
    ensures var part := PartStripped(hooks, todo);
            PartStripped(hooks, todo - {key}) == if hooks[key].Arr? then part[key := Arr(Strip(hooks[key].items))]
              else part
  {
    hide Strip;
  }

  /** The events outside `todo` that are left without a block. */
  function LeftEmpty(hooks: map<string, Json>, todo: set<string>): set<string> {
    set e | e in hooks && e !in todo && LeavesNone(hooks[e])
  }

  predicate AnyShrinks(hooks: map<string, Json>, todo: set<string>) {
    exists e :: e in hooks && e !in todo && Shrinks(hooks[e])
  }

  lemma OneMoreSeen(hooks: map<string, Json>, todo: set<string>, key: string)
    requires key in todo && todo <= hooks.Keys
    ensures LeftEmpty(hooks, todo - {key}) == LeftEmpty(hooks, todo) + (if LeavesNone(hooks[key]) then {key} else {})
    ensures AnyShrinks(hooks, todo - {key}) <==> AnyShrinks(hooks, todo) || Shrinks(hooks[key])
  {
    hide LeavesNone, Shrinks;
    if Shrinks(hooks[key]) { assert key in hooks && key !in todo - {key}; }
  }

  lemma AllStripped(hooks: map<string, Json>, emptyKeys: set<string>)
    requires emptyKeys == LeftEmpty(hooks, {})
    ensures PartStripped(hooks, {}) - emptyKeys == StrippedHooks(hooks)
    ensures (exists e :: e in hooks && Touched(hooks[e])) <==> emptyKeys != {} || AnyShrinks(hooks, {})
  {
    assert forall v: Json :: Touched(v) ==> LeavesNone(v) || Shrinks(v);
    assert forall v: Json :: LeavesNone(v) || Shrinks(v) ==> Touched(v);
    assert forall e :: e in hooks ==> (LeavesNone(hooks[e]) <==> !Survives(hooks[e]));
    hide Strip, Touched, LeavesNone, Shrinks, Survives;
    assert emptyKeys != {} <==> exists e :: e in hooks && LeavesNone(hooks[e]) by {
      if e :| e in emptyKeys { assert LeavesNone(hooks[e]); }
      if e :| e in hooks && LeavesNone(hooks[e]) { assert e in emptyKeys; }
    }
  }

  function WithoutOurHooks(s: map<string, Json>): map<string, Json> {
    if "hooks" !in s || !s["hooks"].Obj? then s
    else if StrippedHooks(s["hooks"].fields) == map[] then s - {"hooks"}
      else s["hooks" := Obj(StrippedHooks(s["hooks"].fields))]
  }

  function WithoutOurLine(s: map<string, Json>, key: string): map<string, Json> {
    if key in s && Mentions(s[key]) then s - {key} else s
  }

  /** Taking out hooks and status lines one after the other cleans the settings. */
  lemma CleanedInSteps(s: map<string, Json>)
    ensures Cleaned(s) == WithoutOurLine(WithoutOurLine(WithoutOurHooks(s), "statusLine"), "subagentStatusLine")
  {
    assert |"hooks"| != |"statusLine"| && |"hooks"| != |"subagentStatusLine"|
      && |"statusLine"| != |"subagentStatusLine"|;
    hide StrippedHooks, Mentions;
  }

  lemma LinesUntouched(s: map<string, Json>)
    ensures Lookup(WithoutOurHooks(s), "statusLine") == Lookup(s, "statusLine")
    ensures Lookup(WithoutOurLine(WithoutOurHooks(s), "statusLine"), "subagentStatusLine")
        == Lookup(s, "subagentStatusLine")
  {
    assert |"hooks"| != |"statusLine"| && |"hooks"| != |"subagentStatusLine"|
      && |"statusLine"| != |"subagentStatusLine"|;
  }

  class SettingsFile {
    var value: Json

    constructor (value: Json)
      ensures this.value == value
    {
      this.value := value;
    }

    /** `retain` with the blocks that are not ours. */
    static method RetainOwn(blocks: seq<Json>) returns (kept: seq<Json>)
      ensures kept == Strip(blocks)
    {
      kept := [];
      for i := 0 to |blocks|
        invariant kept == Strip(blocks[..i])
      {
        StripSnoc(blocks, i);
        if !Managed(blocks[i]) { kept := kept + [blocks[i]]; }
      }
      assert blocks[..|blocks|] == blocks;
    }

    static method MergeManagedHook(hooks: map<string, Json>, event: string, block: Json)
        returns (merged: map<string, Json>)
      ensures merged == hooks[event := Merged(Lookup(hooks, event), block)]
    {
      merged := hooks;
      if event !in merged {
        merged := merged[event := Arr([])];
      }
      if !merged[event].Arr? {
        merged := merged[event := Arr([block])];
        return;
      }
      var kept := RetainOwn(merged[event].items);
      assert event !in hooks ==> kept + [block] == [block];
      merged := merged[event := Arr(kept + [block])];
    }

    method ApplyHookEntries(p: Install)
      modifies this
      ensures value == Applied(old(value), p)
    {
      var s := Fields(value);
      var start := HooksOf(s);
      var hooks := start;
      assert hooks == PartInstalled(start, p, 0);
      for i := 0 to |EVENTS|
        invariant hooks == PartInstalled(start, p, i) && value == old(value)
      {
        PartGrows(start, p, i);
        hooks := MergeManagedHook(hooks, EVENTS[i], Fresh(p, EVENTS[i]));
      }
      assert EVENTS[..|EVENTS|] == EVENTS;
      s := s["hooks" := Obj(hooks)];
      s := s["statusLine" := StatusLine(p)];
      s := s["subagentStatusLine" := SubagentStatusLine(p)];
      value := Obj(s);
    }

    /** The loop over the events: drop our blocks, then the events left without any. */
    static method StripEvents(hooks: map<string, Json>) returns (obj: map<string, Json>, changed: bool)
      ensures obj == StrippedHooks(hooks)
      ensures changed <==> exists e :: e in hooks && Touched(hooks[e])
    {
      hide Strip;
      var emptyKeys: set<string> := {};
      var todo := hooks.Keys;
      obj, changed := hooks, false;
      while todo != {}
        invariant todo <= hooks.Keys && obj == PartStripped(hooks, todo)
        invariant emptyKeys == LeftEmpty(hooks, todo) && (changed <==> AnyShrinks(hooks, todo))
        decreases |todo|
      {
        var key :| key in todo;
        OneStripped(hooks, todo, key);
        OneMoreSeen(hooks, todo, key);
        hide LeftEmpty, AnyShrinks;
        if obj[key].Arr? {
          var kept := RetainOwn(obj[key].items);
          if |kept| != |obj[key].items| { changed := true; }
          if kept == [] { emptyKeys := emptyKeys + {key}; }
          obj := obj[key := Arr(kept)];
        }
        hide PartStripped;
        todo := todo - {key};
      }
      AllStripped(hooks, emptyKeys);
      obj := obj - emptyKeys;
      changed := changed || emptyKeys != {};
    }

    /** The tree part of `uninstall_hooks_result`; `changed` says whether the file is rewritten. */
    method UninstallHooks() returns (changed: bool)
      modifies this
      ensures value == Uninstalled(old(value)) && (changed <==> old(value).Obj? && Removes(old(value).fields))
    {
      changed := false;
      if !value.Obj? {
        return;
      }
      var s := value.fields;
      CleanedInSteps(s);
      hide StrippedHooks, Mentions, Touched, Cleaned;
      if "hooks" in s && s["hooks"].Obj? {
        var obj, found := StripEvents(s["hooks"].fields);
        changed := found;
        if obj == map[] { s := s - {"hooks"}; } else { s := s["hooks" := Obj(obj)]; }
      }
      assert s == WithoutOurHooks(value.fields);
      if "statusLine" in s && Mentions(s["statusLine"]) {
        s := s - {"statusLine"};
        changed := true;
      }
      if "subagentStatusLine" in s && Mentions(s["subagentStatusLine"]) {
        s := s - {"subagentStatusLine"};
        changed := true;
      }
      LinesUntouched(value.fields);
      hide WithoutOurHooks;
      if changed { value := Obj(s); }
    }
  }
}
