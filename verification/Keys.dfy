/** Deploy keys: the scope rules of internal/connproto/role.go, and building and reading their
  * authorized_keys lines in internal/bootstrap/keys.go. */
module Keys {
  import opened Wrappers
  import opened Bytes
  import opened Text
  import KeyBlob

  // ---- The deploy scope ----

  const MAX_DEPLOY_APPS := 32

  predicate Lower(c: char) { 'a' <= c <= 'z' }

  predicate Digit(c: char) { '0' <= c <= '9' }

  // ^[a-z][a-z0-9-]{0,31}$
  predicate AppName(s: string) {
    1 <= |s| <= 32 && Lower(s[0]) && forall i :: 1 <= i < |s| ==> Lower(s[i]) || Digit(s[i]) || s[i] == '-'
  }

  predicate ValidScope(apps: seq<string>) {
    && 1 <= |apps| <= MAX_DEPLOY_APPS
    && (forall i :: 0 <= i < |apps| ==> AppName(apps[i]))
    && (forall i, j :: 0 <= i < j < |apps| ==> apps[i] != apps[j])
  }

  /** checkDeployApps accepts exactly the scopes of one to 32 distinct well-formed names. */
  method CheckDeployApps(apps: seq<string>) returns (ok: bool)
    ensures ok <==> ValidScope(apps)
  {
    if |apps| == 0 || |apps| > MAX_DEPLOY_APPS { return false; }
    var seen: set<string> := {};
    for i := 0 to |apps|
      invariant forall a :: a in seen <==> exists k :: 0 <= k < i && apps[k] == a
      invariant forall k :: 0 <= k < i ==> AppName(apps[k])
      invariant forall j, k :: 0 <= j < k < i ==> apps[j] != apps[k]
    {
      if !AppName(apps[i]) || apps[i] in seen { return false; }
      seen := seen + {apps[i]};
    }
    return true;
  }

  function ParseDeployScope(s: string): Option<seq<string>> {
    if s != "" && ValidScope(Split(s, ',')) then Some(Split(s, ',')) else None
  }

  lemma ScopeChars(apps: seq<string>)
    requires ValidScope(apps)
    ensures forall a :: a in apps ==> ',' !in a && '"' !in a && a != ""
  {
    forall a | a in apps ensures ',' !in a && '"' !in a && a != "" {
      var i :| 0 <= i < |apps| && apps[i] == a;
      assert AppName(apps[i]);
    }
  }

  /** A scope text is accepted, and means these names, iff it is their comma-separated list. */
  lemma ScopeIff(s: string, apps: seq<string>)
    ensures ParseDeployScope(s) == Some(apps) <==> ValidScope(apps) && s == Join(apps, ',')
  {
    JoinSplit(s, ',');
    if ValidScope(apps) && s == Join(apps, ',') {
      ScopeChars(apps);
      assert apps[0] in apps;
      SplitJoin(apps, ',');
    }
  }

  lemma {:induction false} NoQuoteJoin(apps: seq<string>)
    requires forall a :: a in apps ==> '"' !in a
    ensures '"' !in Join(apps, ',')
  {
    if |apps| > 1 { NoQuoteJoin(apps[1..]); }
  }

  // ---- Keys ----

  /** Base64 decoding and the fingerprint text are outside this model. */
  datatype Codec = Codec(decode: string -> Option<seq<byte>>, render: seq<byte> -> string)

  function BytesOf(s: string): Option<seq<byte>> {
    if forall i :: 0 <= i < |s| ==> (s[i] as int) < 256 then Some(seq(|s|, i requires 0 <= i < |s| => s[i] as int)) else None
  }

  // fingerprintOf
  function FingerprintOf(c: Codec, typ: string, base64: string): Option<string> {
    match c.decode(base64)
    case None => None
    case Some(blob) =>
      if BytesOf(typ).Some? && KeyBlob.IsKeyBlob(BytesOf(typ).value, blob) then Some(c.render(blob)) else None
  }

  /** A fingerprint is rendered from the decoded key iff that is in the wire format for its type. */
  lemma FingerprintIff(c: Codec, typ: string, base64: string, fp: string)
    ensures FingerprintOf(c, typ, base64) == Some(fp) <==> exists blob, t :: Renders(c, typ, base64, fp, blob, t)
  {
    hide KeyBlob.IsKeyBlob;
    forall blob, t ensures KeyBlob.IsKeyBlob(t, blob) <==> KeyBlob.WireFormat(t, blob) { KeyBlob.IsKeyBlobIff(t, blob); }
    if FingerprintOf(c, typ, base64) == Some(fp) {
      assert Renders(c, typ, base64, fp, c.decode(base64).value, BytesOf(typ).value);
    }
    forall blob, t | Renders(c, typ, base64, fp, blob, t) ensures FingerprintOf(c, typ, base64) == Some(fp) {
      assert BytesOf(typ) == Some(t) by { assert BytesOf(typ).value == t; }
    }
  }

  ghost predicate Renders(c: Codec, typ: string, base64: string, fp: string, blob: seq<byte>, t: seq<byte>) {
    && c.decode(base64) == Some(blob) && fp == c.render(blob)
    && |t| == |typ| && (forall i :: 0 <= i < |typ| ==> typ[i] as int == t[i])
    && KeyBlob.WireFormat(t, blob)
  }

  // A key that parsePublicKey has accepted.
  datatype PublicKey = PublicKey(typ: string, base64: string, comment: string, fingerprint: string) {
    predicate Valid(c: Codec) {
      Word(typ) && Word(base64) && FingerprintOf(c, typ, base64) == Some(fingerprint)
    }
  }

  predicate CommentChar(c: char) {
    'A' <= c <= 'Z' || Lower(c) || Digit(c) || c in {'@', '.', '_', '+', '-'}
  }

  // ^[A-Za-z0-9@._+-]{1,64}$
  predicate CommentOk(s: string) { 1 <= |s| <= 64 && forall i :: 0 <= i < |s| ==> CommentChar(s[i]) }

  const CONNECT := "/usr/local/lib/kadran/kadran-connect"
  const COMMAND := "command=\""
  const DEPLOY := " -deploy="
  const RESTRICT := ",restrict "

  datatype LineError = BadScope | BadName

  function DeployLine(k: PublicKey, apps: seq<string>, name: string): Result<string, LineError> {
    if !ValidScope(apps) then Err(BadScope)
    else if name != "" && !CommentOk(name) then Err(BadName)
    else
      var comment := if name != "" then name else k.comment;
      var line := COMMAND + CONNECT + DEPLOY + Join(apps, ',') + "\"" + RESTRICT + (k.typ + " " + k.base64);
      Ok(if CommentOk(comment) then line + " " + comment else line)
  }

  datatype Role = NoRole | Admin | Deploy

  datatype AuthorizedKey = AuthorizedKey(role: Role, apps: seq<string>, typ: string, fingerprint: string, comment: string, forced: bool, body: string)

  // The forced command, and what follows its closing quote.
  function Command(line: string): (Option<string>, string) {
    match CutPrefix(line, COMMAND)
    case None => (None, line)
    case Some(after) =>
      match IndexOf(after, '"')
      case None => (None, line)
      case Some(end) => (Some(after[..end]), after[end + 1..])
  }

  function JoinWords(ws: seq<string>): string { Join(ws, ' ') }

  function KeyOf(c: Codec, rest: string): AuthorizedKey {
    var fields := Fields(rest);
    if |fields| < 2 then AuthorizedKey(NoRole, [], "", "", "", false, "")
    else
      var fp := FingerprintOf(c, fields[0], fields[1]);
      AuthorizedKey(NoRole, [], fields[0], if fp.Some? then fp.value else "", JoinWords(fields[2..]), false,
        if fp.Some? then fields[0] + " " + fields[1] else "")
  }

  function ParseLine(c: Codec, line: string): AuthorizedKey {
    var (command, rest) := Command(line);
    match CutPrefix(rest, RESTRICT)
    case None => KeyOf(c, rest)
    case Some(after) =>
      var k := KeyOf(c, after);
      if command.None? then k
      else if command.value == CONNECT then k.(role := Admin, forced := true)
      else match CutPrefix(command.value, CONNECT + DEPLOY)
        case None => k
        case Some(scope) =>
          match ParseDeployScope(scope)
          case None => k
          case Some(apps) => k.(role := Deploy, apps := apps, forced := true)
  }

  // A line that forces this command, restricted.
  function Forced(command: string, rest: string): string {
    COMMAND + command + "\"" + RESTRICT + rest
  }

  lemma ForcedParts(command: string, rest: string)
    requires '"' !in command
    ensures Command(Forced(command, rest)) == (Some(command), RESTRICT + rest)
    ensures CutPrefix(RESTRICT + rest, RESTRICT) == Some(rest)
  {
    var tail := command + ['"'] + (RESTRICT + rest);
    assert Forced(command, rest) == COMMAND + tail;
    CutJoined(COMMAND, tail);
    IndexAfter(command, '"', RESTRICT + rest);
    assert tail[..|command|] == command && tail[|command| + 1..] == RESTRICT + rest;
    CutJoined(RESTRICT, rest);
  }

  lemma CommandBack(line: string)
    requires Command(line).0.Some?
    ensures line == COMMAND + (Command(line).0.value + ("\"" + Command(line).1)) && '"' !in Command(line).0.value
  {
    CutBack(line, COMMAND);
    var after := CutPrefix(line, COMMAND).value;
    hide CutPrefix;
    var end := IndexOf(after, '"').value;
    assert after == after[..end] + ("\"" + after[end + 1..]);
  }

  lemma PartsForced(line: string)
    requires Command(line).0.Some? && CutPrefix(Command(line).1, RESTRICT).Some?
    ensures line == Forced(Command(line).0.value, CutPrefix(Command(line).1, RESTRICT).value)
    ensures '"' !in Command(line).0.value
  {
    hide Command, CutPrefix;
    CommandBack(line);
    CutBack(Command(line).1, RESTRICT);
    Flatten(COMMAND, Command(line).0.value, "\"", RESTRICT, CutPrefix(Command(line).1, RESTRICT).value);
  }

  lemma Flatten(a: string, b: string, c: string, d: string, e: string)
    ensures a + (b + (c + (d + e))) == a + b + c + d + e
  {
  }

  lemma CutBack(s: string, p: string)
    requires CutPrefix(s, p).Some?
    ensures s == p + CutPrefix(s, p).value
  {
  }

  lemma NoQuoteCommand(apps: seq<string>)
    requires ValidScope(apps)
    ensures '"' !in CONNECT + DEPLOY + Join(apps, ',')
    ensures CONNECT + DEPLOY + Join(apps, ',') != CONNECT
  {
    ScopeChars(apps);
    NoQuoteJoin(apps);
    assert '"' !in CONNECT && '"' !in DEPLOY;
    assert |CONNECT + DEPLOY + Join(apps, ',')| > |CONNECT|;
  }

  /** Of all lines, exactly those that force kadran-connect with the list of a valid scope, and
    * restrict the key, are read as deploy keys, and then with that scope. */
  lemma DeployRoleIff(c: Codec, line: string, apps: seq<string>)
    ensures ParseLine(c, line).role == Deploy && ParseLine(c, line).apps == apps <==>
      ValidScope(apps) && exists rest :: line == Forced(CONNECT + DEPLOY + Join(apps, ','), rest)
  {
    hide ValidScope, Fields, FingerprintOf, Split, KeyOf;
    KeyHasNoRole(c, Command(line).1);
    if ParseLine(c, line).role == Deploy && ParseLine(c, line).apps == apps {
      KeyHasNoRole(c, CutPrefix(Command(line).1, RESTRICT).value);
      PartsForced(line);
      var command := Command(line).0.value;
      var scope := CutPrefix(command, CONNECT + DEPLOY).value;
      assert command == CONNECT + DEPLOY + scope;
      ScopeIff(scope, apps);
    }
    if ValidScope(apps) {
      forall rest | line == Forced(CONNECT + DEPLOY + Join(apps, ','), rest)
        ensures ParseLine(c, line).role == Deploy && ParseLine(c, line).apps == apps
      {
        ForcedScope(c, apps, rest);
      }
    }
  }

  /** Of all lines, exactly those that force kadran-connect itself and restrict the key are read
    * as admin keys. Whatever is neither an admin nor a deploy line has no role, no applications
    * and does not count as forced. */
  lemma AdminRoleIff(c: Codec, line: string)
    ensures ParseLine(c, line).role == Admin <==> exists rest :: line == Forced(CONNECT, rest)
    ensures ParseLine(c, line).role == NoRole <==>
      && !(exists rest :: line == Forced(CONNECT, rest))
      && !(exists apps, rest :: ValidScope(apps) && line == Forced(CONNECT + DEPLOY + Join(apps, ','), rest))
    ensures ParseLine(c, line).forced <==> ParseLine(c, line).role != NoRole
    ensures ParseLine(c, line).role != Deploy ==> ParseLine(c, line).apps == []
  {
    AdminForced(c, line);
    hide ValidScope, ParseLine, Forced;
    forall apps ensures ParseLine(c, line).role == Deploy && ParseLine(c, line).apps == apps <==>
      ValidScope(apps) && exists rest :: line == Forced(CONNECT + DEPLOY + Join(apps, ','), rest)
    {
      DeployRoleIff(c, line, apps);
    }
    DeployRoleIff(c, line, ParseLine(c, line).apps);
  }

  lemma AdminForced(c: Codec, line: string)
    ensures ParseLine(c, line).role == Admin <==> exists rest :: line == Forced(CONNECT, rest)
    ensures ParseLine(c, line).forced <==> ParseLine(c, line).role != NoRole
    ensures ParseLine(c, line).role != Deploy ==> ParseLine(c, line).apps == []
  {
    hide ValidScope, Fields, FingerprintOf, Split, KeyOf, ParseDeployScope;
    KeyHasNoRole(c, Command(line).1);
    if CutPrefix(Command(line).1, RESTRICT).Some? {
      KeyHasNoRole(c, CutPrefix(Command(line).1, RESTRICT).value);
      if Command(line).0.Some? { PartsForced(line); }
    }
    forall rest | line == Forced(CONNECT, rest) ensures ParseLine(c, line).role == Admin {
      assert '"' !in CONNECT;
      ForcedParts(CONNECT, rest);
    }
  }

  /** A line without a command and without options is shown with its first word as the type, the
    * words behind the second as the comment, and the fingerprint of the second if it has one. */
  lemma PlainLine(c: Codec, words: seq<string>)
    requires |words| >= 2 && forall i :: 0 <= i < |words| ==> Word(words[i])
    requires !(COMMAND <= JoinWords(words)) && !(RESTRICT <= JoinWords(words))
    ensures ParseLine(c, JoinWords(words)) ==
      var fp := FingerprintOf(c, words[0], words[1]);
      AuthorizedKey(NoRole, [], words[0], if fp.Some? then fp.value else "", JoinWords(words[2..]), false,
        if fp.Some? then words[0] + " " + words[1] else "")
  {
    hide FingerprintOf, Fields, Join;
    FieldsJoin(words);
  }

  lemma KeyHasNoRole(c: Codec, rest: string)
    ensures KeyOf(c, rest).role == NoRole && KeyOf(c, rest).apps == [] && !KeyOf(c, rest).forced
  {
  }

  lemma ForcedScope(c: Codec, apps: seq<string>, rest: string)
    requires ValidScope(apps)
    ensures ParseLine(c, Forced(CONNECT + DEPLOY + Join(apps, ','), rest)) ==
      KeyOf(c, rest).(role := Deploy, apps := apps, forced := true)
  {
    hide ValidScope, KeyOf, Split, Join;
    var command := CONNECT + DEPLOY + Join(apps, ',');
    NoQuoteCommand(apps);
    ForcedParts(command, rest);
    ScopeIff(Join(apps, ','), apps);
    CutJoined(CONNECT + DEPLOY, Join(apps, ','));
  }

  /** A deploy line read back gives the deploy role, the same applications in order, the key's
    * type, fingerprint and body, and the comment it was given if that can stand in a line. */
  lemma LineRoundTrip(c: Codec, k: PublicKey, apps: seq<string>, name: string)
    requires k.Valid(c)
    ensures DeployLine(k, apps, name).Ok? <==> ValidScope(apps) && (name == "" || CommentOk(name))
    ensures DeployLine(k, apps, name).Ok? ==>
      var comment := if name != "" then name else k.comment;
      ParseLine(c, DeployLine(k, apps, name).value) ==
        AuthorizedKey(Deploy, apps, k.typ, k.fingerprint, if CommentOk(comment) then comment else "", true, k.typ + " " + k.base64)
  {
    hide ValidScope, Split, ParseLine, Join, CommentOk;
    if DeployLine(k, apps, name).Ok? {
      var comment := if name != "" then name else k.comment;
      var rest := k.typ + " " + k.base64 + if CommentOk(comment) then " " + comment else "";
      var command := CONNECT + DEPLOY + Join(apps, ',');
      assert DeployLine(k, apps, name).value == Forced(command, rest);
      ForcedScope(c, apps, rest);
      KeyFields(c, k, comment);
    }
  }

  lemma KeyFields(c: Codec, k: PublicKey, comment: string)
    requires k.Valid(c)
    ensures var rest := k.typ + " " + k.base64 + if CommentOk(comment) then " " + comment else "";
      KeyOf(c, rest) == AuthorizedKey(NoRole, [], k.typ, k.fingerprint, if CommentOk(comment) then comment else "", false, k.typ + " " + k.base64)
  {
    hide FingerprintOf, Fields;
    var tail := if CommentOk(comment) then " " + comment else "";
    var rest := k.typ + " " + k.base64 + tail;
    assert rest == k.typ + " " + (k.base64 + tail);
    FieldsWord(k.typ, k.base64 + tail);
    if CommentOk(comment) {
      CommentIsWord(comment);
      assert k.base64 + tail == k.base64 + " " + comment;
      FieldsWord(k.base64, comment);
      FieldsWord(comment, "");
      assert Fields(rest) == [k.typ, k.base64, comment];
    } else {
      assert k.base64 + tail == k.base64;
      FieldsWord(k.base64, "");
      assert Fields(rest) == [k.typ, k.base64];
    }
  }

  lemma CommentIsWord(s: string)
    requires CommentOk(s)
    ensures Word(s)
  {
    forall i | 0 <= i < |s| ensures !Space(s[i]) { assert CommentChar(s[i]); }
  }

  // ---- The whole file ----

  // A line that is neither blank nor a comment, trimmed.
  function Entry(raw: string): Option<string> {
    var line := TrimSpace(raw);
    if line == "" || "#" <= line then None else Some(line)
  }

  function Entries(c: Codec, lines: seq<string>): seq<AuthorizedKey> {
    if lines == [] then []
    else
      var e := Entry(lines[|lines| - 1]);
      Entries(c, lines[..|lines| - 1]) + if e.Some? then [ParseLine(c, e.value)] else []
  }

  // Neither blank nor a comment.
  predicate Shown(raw: string) { TrimSpace(raw) != "" && TrimSpace(raw)[0] != '#' }

  // The lines shown, from the first n, are the ones at these places, in order.
  predicate ShownAt(lines: seq<string>, at: seq<nat>, n: nat) {
    && n <= |lines|
    && (forall j :: 0 <= j < |at| ==> at[j] < n && Shown(lines[at[j]]))
    && (forall j, k :: 0 <= j < k < |at| ==> at[j] < at[k])
    && (forall i :: 0 <= i < n && Shown(lines[i]) ==> i in at)
  }

  /** One entry, in order, for every line that is neither blank nor a comment. */
  method ParseAuthorizedKeys(c: Codec, content: string) returns (out: seq<AuthorizedKey>, ghost at: seq<nat>)
    ensures out == Entries(c, Split(content, '\n'))
    ensures ShownAt(Split(content, '\n'), at, |Split(content, '\n')|) && |out| == |at|
    ensures forall j :: 0 <= j < |at| ==> out[j] == ParseLine(c, TrimSpace(Split(content, '\n')[at[j]]))
  {
    hide ParseLine, Split, TrimSpace, Entries, Shown, ShownAt;
    out, at := [], [];
    var lines := Split(content, '\n');
    NoEntries(c, lines);
    for i := 0 to |lines|
      invariant out == Entries(c, lines[..i])
      invariant ShownAt(lines, at, i) && |out| == |at|
      invariant forall j :: 0 <= j < |at| ==> at[j] < i
      invariant forall j :: 0 <= j < |at| ==> out[j] == ParseLine(c, TrimSpace(lines[at[j]]))
    {
      EntriesNext(c, lines, i, at);
      var line := TrimSpace(lines[i]);
      at := if line == "" || "#" <= line then at else at + [i];
      if line == "" || "#" <= line { continue; }
      out := out + [ParseLine(c, line)];
    }
    assert lines[..|lines|] == lines;
  }

  lemma NoEntries(c: Codec, lines: seq<string>)
    ensures Entries(c, lines[..0]) == [] && ShownAt(lines, [], 0)
  {
  }

  lemma EntriesNext(c: Codec, lines: seq<string>, i: nat, at: seq<nat>)
    requires i < |lines| && ShownAt(lines, at, i)
    ensures var line := TrimSpace(lines[i]);
      if line == "" || "#" <= line then Entries(c, lines[..i + 1]) == Entries(c, lines[..i]) && ShownAt(lines, at, i + 1)
      else Entries(c, lines[..i + 1]) == Entries(c, lines[..i]) + [ParseLine(c, line)] && ShownAt(lines, at + [i], i + 1)
  {
    hide ParseLine, TrimSpace;
    assert lines[..i + 1][..i] == lines[..i];
    assert forall k :: k in at ==> k in at + [i];
    assert i in at + [i];
  }

  lemma {:induction false} EntriesConcat(c: Codec, a: seq<string>, b: seq<string>)
    ensures Entries(c, a + b) == Entries(c, a) + Entries(c, b)
  {
    if b == [] {
      assert a + b == a;
    } else {
      EntriesConcat(c, a, b[..|b| - 1]);
      assert (a + b)[..|a + b| - 1] == a + b[..|b| - 1];
    }
  }

  lemma DeployLineIsEntry(c: Codec, k: PublicKey, apps: seq<string>, name: string)
    requires k.Valid(c) && DeployLine(k, apps, name).Ok?
    ensures var line := DeployLine(k, apps, name).value;
      && '\n' !in line && Entry(line) == Some(line)
      && line != "" && !Space(line[0]) && !Space(line[|line| - 1])
  {
    hide FingerprintOf;
    var comment := if name != "" then name else k.comment;
    var head := COMMAND + CONNECT + DEPLOY + Join(apps, ',') + "\"" + RESTRICT;
    ScopeNoBreak(apps);
    assert '\n' !in head;
    assert '\n' !in k.typ && '\n' !in k.base64;
    var line := DeployLine(k, apps, name).value;
    assert head[0] == 'c';
    if CommentOk(comment) {
      CommentIsWord(comment);
      assert line == head + (k.typ + " " + k.base64) + " " + comment;
      assert '\n' !in comment;
      assert line[|line| - 1] == comment[|comment| - 1];
    } else {
      assert line == head + (k.typ + " " + k.base64);
      assert line[|line| - 1] == k.base64[|k.base64| - 1];
    }
    assert line[0] == 'c';
  }

  lemma ScopeNoBreak(apps: seq<string>)
    requires ValidScope(apps)
    ensures '\n' !in Join(apps, ',')
  {
    forall a | a in apps ensures '\n' !in a {
      var i :| 0 <= i < |apps| && apps[i] == a;
      assert AppName(apps[i]);
    }
    NoBreakJoin(apps);
  }

  lemma {:induction false} NoBreakJoin(apps: seq<string>)
    requires forall a :: a in apps ==> '\n' !in a
    ensures '\n' !in Join(apps, ',')
  {
    if |apps| > 1 { NoBreakJoin(apps[1..]); }
  }

  // ---- Adding a line to the file ----

  // What the server's add makes of the file: the line and a line feed after whatever is there.
  function Added(content: string, line: string): string { content + line + "\n" }

  // What follows the last line feed.
  function Rest(content: string): string {
    var lines := Split(content, '\n');
    lines[|lines| - 1]
  }

  // The added line comes behind the last line of the file, on the same line.
  lemma AddedLines(content: string, line: string)
    requires '\n' !in line
    ensures var lines := Split(content, '\n');
      && Split(Added(content, line), '\n') == lines[..|lines| - 1] + [Rest(content) + line] + [""]
      && lines == lines[..|lines| - 1] + [Rest(content)]
  {
    hide Split;
    SplitAppend(content, '\n', line);
    EndLine(content + line);
  }

  lemma EndLine(s: string)
    ensures Split(s + "\n", '\n') == Split(s, '\n') + [""]
  {
    hide Split;
    SplitConcat(s, '\n', "");
    SplitPart("", '\n', "");
    assert s + ['\n'] + "" == s + "\n";
  }

  lemma EntriesLast(c: Codec, init: seq<string>, raw: string)
    ensures Entries(c, init + [raw]) == Entries(c, init) + if Entry(raw).Some? then [ParseLine(c, Entry(raw).value)] else []
  {
    assert (init + [raw])[..|init|] == init;
  }

  // A line glued behind a comment is part of the comment; behind blanks it is itself.
  lemma Glued(last: string, line: string)
    requires Entry(line) == Some(line) && line != "" && !Space(line[0]) && !Space(line[|line| - 1])
    ensures TrimSpace(last) == "" ==> Entry(last + line) == Some(line)
    ensures "#" <= TrimSpace(last) ==> Entry(last + line) == None
  {
    TrimGlued(last, line);
  }

  /** A deploy line added to the file is listed last, and every other line as before, iff nothing
    * but white space follows the file's last line feed. Otherwise the key is listed nowhere,
    * or in place of the line it was glued to. */
  lemma AddedLineIff(c: Codec, content: string, k: PublicKey, apps: seq<string>, name: string)
    requires k.Valid(c) && DeployLine(k, apps, name).Ok?
    ensures var line := DeployLine(k, apps, name).value;
      var before, after := Entries(c, Split(content, '\n')), Entries(c, Split(Added(content, line), '\n'));
      && (after == before + [ParseLine(c, line)] <==> TrimSpace(Rest(content)) == "")
      && (TrimSpace(Rest(content)) != "" ==> |after| <= |before|)
  {
    hide DeployLine, ParseLine, Split, Entries;
    var line := DeployLine(k, apps, name).value;
    DeployLineIsEntry(c, k, apps, name);
    AddedLines(content, line);
    var lines := Split(content, '\n');
    var init, last := lines[..|lines| - 1], Rest(content);
    EntriesLast(c, init, last);
    EntriesLast(c, init, last + line);
    EntriesLast(c, init + [last + line], "");
    assert TrimSpace("") == "";
    Glued(last, line);
  }

  /** The failing input: behind a comment without a line feed the added key is listed nowhere. */
  lemma AddedBehindComment(c: Codec, k: PublicKey, apps: seq<string>, name: string)
    requires k.Valid(c) && DeployLine(k, apps, name).Ok?
    ensures Entries(c, Split(Added("#", DeployLine(k, apps, name).value), '\n')) == []
  {
    hide DeployLine, ParseLine;
    SplitPart("#", '\n', "");
    assert ["#"][..0] == [];
    assert TrimSpace("#") == "#";
    assert Entries(c, ["#"]) == [];
    AddedLineIff(c, "#", k, apps, name);
  }
}
