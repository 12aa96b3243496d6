/**
  * The configuration update route rewrites `.env.local` one setting at a time:
  * `updateEnvLine` replaces the first active `KEY=` line or appends a new one,
  * and the POST handler applies it, in a fixed key order, for every field of
  * the request that is truthy. Reading and writing the file are outside the
  * model: the handler is modelled from the content read to the content written.
  */
module EnvConfig {
  import opened Wrappers
  import opened JsStrings

  /* ---------------- updateEnvLine ---------------- */

  /** The line `KEY=value`. */
  function Setting(key: string, value: string): string {
    key + "=" + value
  }

  /** A line that sets `key`: once trimmed it starts with `KEY=` and is not a `#` comment. */
  predicate IsKeyLine(line: string, key: string) {
    StartsWith(Trim(line), key + "=") && !StartsWith(Trim(line), "#")
  }

  /** `findIndex` from position `from` on: the first line setting `key`, or -1. */
  function FindFrom(lines: seq<string>, key: string, from: nat): (r: int)
    requires from <= |lines|
    ensures r == -1 || from <= r < |lines|
    decreases |lines| - from
  {
    if from == |lines| then -1
    else if IsKeyLine(lines[from], key) then from
    else FindFrom(lines, key, from + 1)
  }

  /** `lines.findIndex(...)`: the index of the first line setting `key`, or -1 when there is none. */
  function FindKeyLine(lines: seq<string>, key: string): (r: int)
    ensures r == -1 || 0 <= r < |lines|
  {
    FindFrom(lines, key, 0)
  }

  /** The search from `from` finds the first line setting the key at or after `from`, and -1 only when there is none. */
  lemma {:induction false} FindFromFirst(lines: seq<string>, key: string, from: nat)
    requires from <= |lines|
    ensures var r := FindFrom(lines, key, from);
      && (r >= 0 ==> IsKeyLine(lines[r], key) && forall j :: from <= j < r ==> !IsKeyLine(lines[j], key))
      && (r == -1 ==> forall j :: from <= j < |lines| ==> !IsKeyLine(lines[j], key))
    decreases |lines| - from
  {
    if from < |lines| && !IsKeyLine(lines[from], key) {
      FindFromFirst(lines, key, from + 1);
    }
  }

  /** `findIndex` returns the first line setting the key, and -1 exactly when no line does. */
  lemma FindKeyLineFirst(lines: seq<string>, key: string)
    ensures var r := FindKeyLine(lines, key);
      && (r >= 0 ==> IsKeyLine(lines[r], key) && forall j :: 0 <= j < r ==> !IsKeyLine(lines[j], key))
      && (r == -1 <==> forall j :: 0 <= j < |lines| ==> !IsKeyLine(lines[j], key))
  {
    FindFromFirst(lines, key, 0);
  }

  /** Source: config.ts `updateEnvLine`. Without a line for the key, the setting is added at the very end. */
  function UpdateEnvLine(content: string, key: string, value: string): (r: string)
    ensures FindKeyLine(Split(content, '\n'), key) == -1 ==>
      StartsWith(r, content) && EndsWith(r, Setting(key, value) + "\n")
  {
    var lines := Split(content, '\n');
    var keyIndex := FindKeyLine(lines, key);
    if keyIndex >= 0 then Join(lines[keyIndex := Setting(key, value)], '\n')
    else Appended(content, Setting(key, value))
  }

  /** The content with `line` added at the end: a newline first if the content is not empty and not terminated. */
  function Appended(content: string, line: string): (r: string)
    ensures StartsWith(r, content) && EndsWith(r, line + "\n")
    ensures |r| == |content| + |line| + (if content != "" && !EndsWith(content, "\n") then 2 else 1)
    ensures content != "" && !EndsWith(content, "\n") ==> r[|content|] == '\n'
  {
    var terminated := if content != "" && !EndsWith(content, "\n") then content + "\n" else content;
    terminated + line + "\n"
  }

  /** The lines of `content`, without the empty piece after a final newline; none for empty content. */
  function ContentLines(content: string): seq<string> {
    if content == "" then []
    else if EndsWith(content, "\n") then Split(content[..|content| - 1], '\n')
    else Split(content, '\n')
  }

  /** `ContentLines` is a prefix of the split, missing at most the empty piece after a final newline. */
  lemma ContentLinesPrefix(content: string)
    ensures var lines := Split(content, '\n');
      && |ContentLines(content)| <= |lines|
      && forall j :: 0 <= j < |ContentLines(content)| ==> ContentLines(content)[j] == lines[j]
  {
    if content != "" && EndsWith(content, "\n") {
      var body := content[..|content| - 1];
      assert content == body + ['\n'];
      SplitTrailing(body, '\n');
    }
  }

  /** A setting for a key that is empty, or not blank-led and not a comment, is a line setting that key. */
  lemma SettingIsKeyLine(key: string, value: string)
    requires key == [] || (!IsWhitespace(key[0]) && key[0] != '#')
    ensures IsKeyLine(Setting(key, value), key)
  {
    var line := Setting(key, value);
    var lead := if key == [] then '=' else key[0];
    assert line[0] == lead;
    assert TrimStart(line) == line;
    TrimEndShape(line);
    var t := TrimEnd(line);
    assert line[|key|] == '=';
    assert |t| > |key|;
    assert t[..|key| + 1] == line[..|key| + 1] == key + "=";
    assert t[0] == lead;
  }

  /**
    * When some line sets the key, the first such line becomes exactly `KEY=value`
    * and every other line, and the number of lines, stays as it was.
    */
  lemma ReplacesFirstKeyLine(content: string, key: string, value: string)
    requires FindKeyLine(Split(content, '\n'), key) >= 0
    requires '\n' !in key && '\n' !in value
    ensures var lines := Split(content, '\n');
      var i := FindKeyLine(lines, key);
      var updated := Split(UpdateEnvLine(content, key, value), '\n');
      && updated == lines[i := Setting(key, value)]
      && |updated| == |lines|
      && updated[i] == Setting(key, value)
      && forall j :: 0 <= j < |lines| && j != i ==> updated[j] == lines[j]
  {
    var lines := Split(content, '\n');
    var i := FindKeyLine(lines, key);
    var replaced := lines[i := Setting(key, value)];
    assert '\n' !in Setting(key, value);
    SplitPiecesFree(content, '\n');
    assert forall k :: 0 <= k < |replaced| ==> '\n' !in replaced[k];
    SplitJoin(replaced, '\n');
  }

  /**
    * Appending keeps the content as a prefix, ends in a newline, and adds `line`
    * after the existing lines, followed only by the empty text after the final newline.
    */
  lemma AppendedLines(content: string, line: string)
    requires '\n' !in line
    ensures var updated := Appended(content, line);
      && StartsWith(updated, content)
      && EndsWith(updated, "\n")
      && Split(updated, '\n') == ContentLines(content) + [line, ""]
  {
    var updated := Appended(content, line);
    SplitFree(line, '\n');
    if content == "" {
      assert updated == line + ['\n'];
      SplitTrailing(line, '\n');
    } else {
      var body := if EndsWith(content, "\n") then content[..|content| - 1] else content;
      assert updated == body + ['\n'] + line + ['\n'];
      assert updated[..|content|] == content;
      SplitTrailing(body + ['\n'] + line, '\n');
      SplitAround(body, line, '\n');
    }
  }

  /**
    * When no line sets the key, `KEY=value` is appended as the new last line,
    * after the existing content, newline-terminated if it was not.
    */
  lemma AppendsWhenAbsent(content: string, key: string, value: string)
    requires FindKeyLine(Split(content, '\n'), key) == -1
    requires '\n' !in key && '\n' !in value
    ensures var updated := UpdateEnvLine(content, key, value);
      && StartsWith(updated, content)
      && EndsWith(updated, "\n")
      && Split(updated, '\n') == ContentLines(content) + [Setting(key, value), ""]
  {
    assert '\n' !in Setting(key, value);
    AppendedLines(content, Setting(key, value));
  }

  /** A commented-out line is never the one replaced, even when it reads `# KEY=...`. */
  lemma CommentNeverReplaced(lines: seq<string>, key: string, j: nat)
    requires j < |lines| && StartsWith(Trim(lines[j]), "#")
    ensures FindKeyLine(lines, key) != j
  {
    FindKeyLineFirst(lines, key);
  }

  /** A key that itself starts with `#` matches no line, so every update appends. */
  lemma HashKeyAlwaysAppends(lines: seq<string>, key: string)
    requires key != [] && key[0] == '#'
    ensures FindKeyLine(lines, key) == -1
  {
    FindKeyLineFirst(lines, key);
    forall j | 0 <= j < |lines|
      ensures !IsKeyLine(lines[j], key)
    {
      NotBothKeyAndComment(Trim(lines[j]), key);
    }
  }

  /** Text that starts with `KEY=` for a `#`-led key starts with `#`. */
  lemma NotBothKeyAndComment(t: string, key: string)
    requires key != [] && key[0] == '#'
    ensures StartsWith(t, key + "=") ==> StartsWith(t, "#")
  {
    if StartsWith(t, key + "=") {
      assert t[0] == (key + "=")[0] == '#';
      assert t[..1] == [t[0]];
    }
  }

  /**
    * Setting a key twice to the same newline-free value gives what setting it
    * once gives, for a key that is empty or is not blank-led and not a comment.
    */
  lemma UpdateIdempotent(content: string, key: string, value: string)
    requires '\n' !in key && '\n' !in value
    requires key == [] || (!IsWhitespace(key[0]) && key[0] != '#')
    ensures UpdateEnvLine(UpdateEnvLine(content, key, value), key, value) == UpdateEnvLine(content, key, value)
  {
    var once := UpdateEnvLine(content, key, value);
    var lines := Split(content, '\n');
    SettingIsKeyLine(key, value);
    FindKeyLineFirst(lines, key);
    if FindKeyLine(lines, key) >= 0 {
      ReplacesFirstKeyLine(content, key, value);
      SettingFoundAt(once, key, value, FindKeyLine(lines, key));
    } else {
      AppendsWhenAbsent(content, key, value);
      ContentLinesPrefix(content);
      SettingFoundAt(once, key, value, |ContentLines(content)|);
    }
  }

  /** Content whose first line setting the key already reads `KEY=value` is left as it is. */
  lemma SettingFoundAt(content: string, key: string, value: string, i: nat)
    requires var lines := Split(content, '\n');
      && i < |lines| && lines[i] == Setting(key, value) && IsKeyLine(lines[i], key)
      && forall j :: 0 <= j < i ==> !IsKeyLine(lines[j], key)
    ensures UpdateEnvLine(content, key, value) == content
  {
    var lines := Split(content, '\n');
    FindKeyLineFirst(lines, key);
    assert FindKeyLine(lines, key) == i;
    assert lines[i := Setting(key, value)] == lines;
    JoinSplit(content, '\n');
  }

  /* ---------------- the POST handler's fold ---------------- */

  datatype InfluxUpdates = InfluxUpdates(url: Option<string>, org: Option<string>, bucket: Option<string>, token: Option<string>)

  datatype BlockchainUpdates = BlockchainUpdates(rpcUrl: Option<string>, contractAddress: Option<string>, privateKey: Option<string>)

  /** `allowedOrigins` arrives either as an array of origins or as one string. */
  datatype AllowedOrigins = OriginList(origins: seq<string>) | OriginText(text: string)

  datatype ConnectorUpdates = ConnectorUpdates(
    port: Option<int>,
    sessionTtlSeconds: Option<int>,
    logLevel: Option<string>,
    allowedOrigins: Option<AllowedOrigins>)

  /** The request body; an absent group is `None`. */
  datatype ConfigUpdates = ConfigUpdates(
    influx: Option<InfluxUpdates>,
    blockchain: Option<BlockchainUpdates>,
    connector: Option<ConnectorUpdates>)

  /** The settings the handler can write, in the order it writes them. */
  datatype EnvKey =
    | InfluxUrl | InfluxOrg | InfluxBucket | InfluxToken
    | PolygonRpcUrl | AnchorContractAddress | AnchorPrivateKey
    | ConnectorPort | SessionTtl | LogLevel | ConnectorAllowedOrigins

  const EnvKeys: seq<EnvKey> := [
    InfluxUrl, InfluxOrg, InfluxBucket, InfluxToken,
    PolygonRpcUrl, AnchorContractAddress, AnchorPrivateKey,
    ConnectorPort, SessionTtl, LogLevel, ConnectorAllowedOrigins]

  function Name(k: EnvKey): string {
    match k
    case InfluxUrl => "INFLUX_URL"
    case InfluxOrg => "INFLUX_ORG"
    case InfluxBucket => "INFLUX_BUCKET"
    case InfluxToken => "INFLUX_TOKEN"
    case PolygonRpcUrl => "POLYGON_RPC_URL"
    case AnchorContractAddress => "ANCHOR_CONTRACT_ADDRESS"
    case AnchorPrivateKey => "ANCHOR_PRIVATE_KEY"
    case ConnectorPort => "CONNECTOR_PORT"
    case SessionTtl => "SESSION_TTL_SECONDS"
    case LogLevel => "LOG_LEVEL"
    case ConnectorAllowedOrigins => "CONNECTOR_ALLOWED_ORIGINS"
  }

  /** The position of a key in the write order. */
  function Rank(k: EnvKey): (r: nat)
    ensures r < |EnvKeys| && EnvKeys[r] == k
  {
    match k
    case InfluxUrl => 0
    case InfluxOrg => 1
    case InfluxBucket => 2
    case InfluxToken => 3
    case PolygonRpcUrl => 4
    case AnchorContractAddress => 5
    case AnchorPrivateKey => 6
    case ConnectorPort => 7
    case SessionTtl => 8
    case LogLevel => 9
    case ConnectorAllowedOrigins => 10
  }

  /** A numeric field is written when present and not zero, as its decimal text. */
  function NumberText(n: Option<int>): Option<string> {
    if n.Some? && n.value != 0 then Some(IntToString(n.value)) else None
  }

  /** A string field is written when present and not empty. */
  function Text(s: Option<string>): Option<string> {
    if Truthy(s) then s else None
  }

  /** The origins as written: an array comma-joined, a string as it is. */
  function OriginsValue(o: AllowedOrigins): string {
    match o
    case OriginList(origins) => Join(origins, ',')
    case OriginText(text) => text
  }

  /** An array of origins is always truthy; a string only when not empty. */
  function OriginsText(o: Option<AllowedOrigins>): Option<string> {
    if o.Some? && (o.value.OriginList? || o.value.text != "") then Some(OriginsValue(o.value)) else None
  }

  /** The value the handler writes for `k`, or `None` when its group or field is absent or falsy. */
  function FieldFor(u: ConfigUpdates, k: EnvKey): Option<string> {
    match k
    case InfluxUrl => if u.influx.Some? then Text(u.influx.value.url) else None
    case InfluxOrg => if u.influx.Some? then Text(u.influx.value.org) else None
    case InfluxBucket => if u.influx.Some? then Text(u.influx.value.bucket) else None
    case InfluxToken => if u.influx.Some? then Text(u.influx.value.token) else None
    case PolygonRpcUrl => if u.blockchain.Some? then Text(u.blockchain.value.rpcUrl) else None
    case AnchorContractAddress => if u.blockchain.Some? then Text(u.blockchain.value.contractAddress) else None
    case AnchorPrivateKey => if u.blockchain.Some? then Text(u.blockchain.value.privateKey) else None
    case ConnectorPort => if u.connector.Some? then NumberText(u.connector.value.port) else None
    case SessionTtl => if u.connector.Some? then NumberText(u.connector.value.sessionTtlSeconds) else None
    case LogLevel => if u.connector.Some? then Text(u.connector.value.logLevel) else None
    case ConnectorAllowedOrigins => if u.connector.Some? then OriginsText(u.connector.value.allowedOrigins) else None
  }

  /** The setting to write for `k`, if any. */
  function EditFor(u: ConfigUpdates, k: EnvKey): seq<(EnvKey, string)> {
    var field := FieldFor(u, k);
    if field.Some? then [(k, field.value)] else []
  }

  /** The (key, value) settings to write, taking `keys` in order and skipping the falsy fields. */
  function Edits(u: ConfigUpdates, keys: seq<EnvKey>): seq<(EnvKey, string)>
    decreases |keys|
  {
    if |keys| == 0 then []
    else Edits(u, keys[..|keys| - 1]) + EditFor(u, keys[|keys| - 1])
  }

  /** Each edit applied in turn with `updateEnvLine`. */
  function ApplyEdits(content: string, edits: seq<(EnvKey, string)>): string
    decreases |edits|
  {
    if |edits| == 0 then content
    else
      var last := edits[|edits| - 1];
      UpdateEnvLine(ApplyEdits(content, edits[..|edits| - 1]), Name(last.0), last.1)
  }

  /** A line rewriter: content, key and value to new content. The handler uses `UpdateEnvLine`. */
  type LineUpdate = (string, string, string) -> string

  /** One handler statement: `if (field) envContent = update(envContent, KEY, value)`. */
  function Put(content: string, key: string, field: Option<string>, update: LineUpdate): string {
    if field.Some? then update(content, key, field.value) else content
  }

  /** The handler statement for key `k`. */
  function Step(content: string, u: ConfigUpdates, k: EnvKey, update: LineUpdate): string {
    Put(content, Name(k), FieldFor(u, k), update)
  }

  /** The content after the handler's steps for keys `lo` up to (not including) `hi` of the write order. */
  function Steps(content: string, u: ConfigUpdates, lo: nat, hi: nat, update: LineUpdate): string
    requires lo <= hi <= |EnvKeys|
    decreases hi - lo
  {
    if hi == lo then content else Step(Steps(content, u, lo, hi - 1, update), u, EnvKeys[hi - 1], update)
  }

  /** Running the steps up to `mid` and then from `mid` on is running them all. */
  lemma {:induction false} StepsSplit(content: string, u: ConfigUpdates, mid: nat, hi: nat, update: LineUpdate)
    requires mid <= hi <= |EnvKeys|
    ensures Steps(Steps(content, u, 0, mid, update), u, mid, hi, update) == Steps(content, u, 0, hi, update)
    decreases hi - mid
  {
    if hi > mid {
      StepsSplit(content, u, mid, hi - 1, update);
    }
  }

  /** Applying one more key's edit is one more handler step. */
  lemma StepSnoc(content: string, edits: seq<(EnvKey, string)>, u: ConfigUpdates, k: EnvKey)
    ensures ApplyEdits(content, edits + EditFor(u, k)) == Step(ApplyEdits(content, edits), u, k, UpdateEnvLine)
  {
    var edit := EditFor(u, k);
    if edit == [] {
      assert edits + edit == edits;
    } else {
      assert (edits + edit)[..|edits|] == edits;
    }
  }

  /** Taking one more key of the order adds that key's edit at the end. */
  lemma EditsPrefix(u: ConfigUpdates, keys: seq<EnvKey>, n: nat)
    requires n < |keys|
    ensures Edits(u, keys[..n + 1]) == Edits(u, keys[..n]) + EditFor(u, keys[n])
  {
    assert keys[..n + 1][..n] == keys[..n];
  }

  /**
    * The handler's steps for the first `n` keys apply exactly the edit list of
    * those keys: the truthy fields' settings, in key order.
    */
  lemma {:induction false} StepsAreEdits(content: string, u: ConfigUpdates, n: nat)
    requires n <= |EnvKeys|
    ensures Steps(content, u, 0, n, UpdateEnvLine) == ApplyEdits(content, Edits(u, EnvKeys[..n]))
  {
    if n == 0 {
      assert EnvKeys[..0] == [];
    } else {
      StepsAreEdits(content, u, n - 1);
      EditsPrefix(u, EnvKeys, n - 1);
      StepSnoc(content, Edits(u, EnvKeys[..n - 1]), u, EnvKeys[n - 1]);
    }
  }

  /** The handler's `influx` block: URL, org, bucket, token, each when truthy. */
  function InfluxBlock(content: string, u: ConfigUpdates, update: LineUpdate): string {
    if u.influx.None? then content
    else
      var influx := u.influx.value;
      var c1 := Put(content, "INFLUX_URL", Text(influx.url), update);
      var c2 := Put(c1, "INFLUX_ORG", Text(influx.org), update);
      var c3 := Put(c2, "INFLUX_BUCKET", Text(influx.bucket), update);
      Put(c3, "INFLUX_TOKEN", Text(influx.token), update)
  }

  /** The handler's `blockchain` block: RPC URL, contract address, private key, each when truthy. */
  function BlockchainBlock(content: string, u: ConfigUpdates, update: LineUpdate): string {
    if u.blockchain.None? then content
    else
      var blockchain := u.blockchain.value;
      var c1 := Put(content, "POLYGON_RPC_URL", Text(blockchain.rpcUrl), update);
      var c2 := Put(c1, "ANCHOR_CONTRACT_ADDRESS", Text(blockchain.contractAddress), update);
      Put(c2, "ANCHOR_PRIVATE_KEY", Text(blockchain.privateKey), update)
  }

  /** The handler's `connector` block: port, session TTL, log level, allowed origins, each when truthy. */
  function ConnectorBlock(content: string, u: ConfigUpdates, update: LineUpdate): string {
    if u.connector.None? then content
    else
      var connector := u.connector.value;
      var c1 := Put(content, "CONNECTOR_PORT", NumberText(connector.port), update);
      var c2 := Put(c1, "SESSION_TTL_SECONDS", NumberText(connector.sessionTtlSeconds), update);
      var c3 := Put(c2, "LOG_LEVEL", Text(connector.logLevel), update);
      Put(c3, "CONNECTOR_ALLOWED_ORIGINS", OriginsText(connector.allowedOrigins), update)
  }

  /** The block's steps are the steps for keys 0 to 3 of the write order. */
  lemma InfluxBlockSteps(content: string, u: ConfigUpdates, update: LineUpdate)
    ensures Steps(content, u, 0, 4, update) == InfluxBlock(content, u, update)
  {
    assert EnvKeys[0] == InfluxUrl;
    assert EnvKeys[1] == InfluxOrg;
    assert EnvKeys[2] == InfluxBucket;
    assert EnvKeys[3] == InfluxToken;
  }

  /** The block's steps are the steps for keys 4 to 6 of the write order. */
  lemma BlockchainBlockSteps(content: string, u: ConfigUpdates, update: LineUpdate)
    ensures Steps(content, u, 4, 7, update) == BlockchainBlock(content, u, update)
  {
    assert EnvKeys[4] == PolygonRpcUrl;
    assert EnvKeys[5] == AnchorContractAddress;
    assert EnvKeys[6] == AnchorPrivateKey;
  }

  /** The block's steps are the steps for keys 7 to 10 of the write order. */
  lemma ConnectorBlockSteps(content: string, u: ConfigUpdates, update: LineUpdate)
    ensures Steps(content, u, 7, 11, update) == ConnectorBlock(content, u, update)
  {
    assert EnvKeys[7] == ConnectorPort;
    assert EnvKeys[8] == SessionTtl;
    assert EnvKeys[9] == LogLevel;
    assert EnvKeys[10] == ConnectorAllowedOrigins;
  }

  /** Source: config.ts POST handler, the `influx` block. */
  method ApplyInfluxUpdates(envContent: string, updates: ConfigUpdates, update: LineUpdate) returns (r: string)
    ensures r == InfluxBlock(envContent, updates, update)
  {
    r := envContent;
    ghost var prev := r;
    if updates.influx.Some? {
      var influx := updates.influx.value;
      prev := r;
      if Truthy(influx.url) {
        r := update(r, "INFLUX_URL", influx.url.value);
        assert r == Put(prev, "INFLUX_URL", Text(influx.url), update);
      } else {
        assert r == Put(prev, "INFLUX_URL", Text(influx.url), update);
      }
      prev := r;
      if Truthy(influx.org) {
        r := update(r, "INFLUX_ORG", influx.org.value);
        assert r == Put(prev, "INFLUX_ORG", Text(influx.org), update);
      } else {
        assert r == Put(prev, "INFLUX_ORG", Text(influx.org), update);
      }
      prev := r;
      if Truthy(influx.bucket) {
        r := update(r, "INFLUX_BUCKET", influx.bucket.value);
        assert r == Put(prev, "INFLUX_BUCKET", Text(influx.bucket), update);
      } else {
        assert r == Put(prev, "INFLUX_BUCKET", Text(influx.bucket), update);
      }
      prev := r;
      if Truthy(influx.token) {
        r := update(r, "INFLUX_TOKEN", influx.token.value);
        assert r == Put(prev, "INFLUX_TOKEN", Text(influx.token), update);
      } else {
        assert r == Put(prev, "INFLUX_TOKEN", Text(influx.token), update);
      }
    }
  }

  /** Source: config.ts POST handler, the `blockchain` block. */
  method ApplyBlockchainUpdates(envContent: string, updates: ConfigUpdates, update: LineUpdate) returns (r: string)
    ensures r == BlockchainBlock(envContent, updates, update)
  {
    r := envContent;
    ghost var prev := r;
    if updates.blockchain.Some? {
      var blockchain := updates.blockchain.value;
      prev := r;
      if Truthy(blockchain.rpcUrl) {
        r := update(r, "POLYGON_RPC_URL", blockchain.rpcUrl.value);
        assert r == Put(prev, "POLYGON_RPC_URL", Text(blockchain.rpcUrl), update);
      } else {
        assert r == Put(prev, "POLYGON_RPC_URL", Text(blockchain.rpcUrl), update);
      }
      prev := r;
      if Truthy(blockchain.contractAddress) {
        r := update(r, "ANCHOR_CONTRACT_ADDRESS", blockchain.contractAddress.value);
        assert r == Put(prev, "ANCHOR_CONTRACT_ADDRESS", Text(blockchain.contractAddress), update);
      } else {
        assert r == Put(prev, "ANCHOR_CONTRACT_ADDRESS", Text(blockchain.contractAddress), update);
      }
      prev := r;
      if Truthy(blockchain.privateKey) {
        r := update(r, "ANCHOR_PRIVATE_KEY", blockchain.privateKey.value);
        assert r == Put(prev, "ANCHOR_PRIVATE_KEY", Text(blockchain.privateKey), update);
      } else {
        assert r == Put(prev, "ANCHOR_PRIVATE_KEY", Text(blockchain.privateKey), update);
      }
    }
  }

  /** Source: config.ts POST handler, the `connector` block; an origin array is comma-joined. */
  method ApplyConnectorUpdates(envContent: string, updates: ConfigUpdates, update: LineUpdate) returns (r: string)
    ensures r == ConnectorBlock(envContent, updates, update)
  {
    r := envContent;
    ghost var prev := r;
    if updates.connector.Some? {
      var connector := updates.connector.value;
      prev := r;
      if connector.port.Some? && connector.port.value != 0 {
        r := update(r, "CONNECTOR_PORT", IntToString(connector.port.value));
        assert r == Put(prev, "CONNECTOR_PORT", NumberText(connector.port), update);
      } else {
        assert r == Put(prev, "CONNECTOR_PORT", NumberText(connector.port), update);
      }
      prev := r;
      if connector.sessionTtlSeconds.Some? && connector.sessionTtlSeconds.value != 0 {
        r := update(r, "SESSION_TTL_SECONDS", IntToString(connector.sessionTtlSeconds.value));
        assert r == Put(prev, "SESSION_TTL_SECONDS", NumberText(connector.sessionTtlSeconds), update);
      } else {
        assert r == Put(prev, "SESSION_TTL_SECONDS", NumberText(connector.sessionTtlSeconds), update);
      }
      prev := r;
      if Truthy(connector.logLevel) {
        r := update(r, "LOG_LEVEL", connector.logLevel.value);
        assert r == Put(prev, "LOG_LEVEL", Text(connector.logLevel), update);
      } else {
        assert r == Put(prev, "LOG_LEVEL", Text(connector.logLevel), update);
      }
      prev := r;
      if connector.allowedOrigins.Some? && (connector.allowedOrigins.value.OriginList? || connector.allowedOrigins.value.text != "") {
        var origins := OriginsValue(connector.allowedOrigins.value);
        r := update(r, "CONNECTOR_ALLOWED_ORIGINS", origins);
        assert r == Put(prev, "CONNECTOR_ALLOWED_ORIGINS", OriginsText(connector.allowedOrigins), update);
      } else {
        assert r == Put(prev, "CONNECTOR_ALLOWED_ORIGINS", OriginsText(connector.allowedOrigins), update);
      }
    }
  }

  /**
    * Source: config.ts POST handler: the three blocks in turn, from the content
    * read to the content written. The result is the file with exactly the
    * truthy fields' settings applied, one `updateEnvLine` each, in key order.
    */
  method ApplyConfigUpdates(content: string, updates: ConfigUpdates) returns (envContent: string)
    ensures envContent == ApplyEdits(content, Edits(updates, EnvKeys))
  {
    envContent := ApplyInfluxUpdates(content, updates, UpdateEnvLine);
    envContent := ApplyBlockchainUpdates(envContent, updates, UpdateEnvLine);
    envContent := ApplyConnectorUpdates(envContent, updates, UpdateEnvLine);
    HandlerAppliesEdits(content, updates);
  }

  /** The three blocks together apply the edit list of the whole write order. */
  lemma HandlerAppliesEdits(content: string, u: ConfigUpdates)
    ensures var influx := InfluxBlock(content, u, UpdateEnvLine);
      ConnectorBlock(BlockchainBlock(influx, u, UpdateEnvLine), u, UpdateEnvLine) == ApplyEdits(content, Edits(u, EnvKeys))
  {
    var influx := InfluxBlock(content, u, UpdateEnvLine);
    InfluxBlockSteps(content, u, UpdateEnvLine);
    BlockchainBlockSteps(influx, u, UpdateEnvLine);
    ConnectorBlockSteps(BlockchainBlock(influx, u, UpdateEnvLine), u, UpdateEnvLine);
    StepsSplit(content, u, 4, 7, UpdateEnvLine);
    StepsSplit(content, u, 7, 11, UpdateEnvLine);
    StepsAreEdits(content, u, |EnvKeys|);
    assert EnvKeys[..|EnvKeys|] == EnvKeys;
  }

  /** The settings are written in the fixed key order, each key at most once. */
  lemma {:induction false} EditsInKeyOrder(u: ConfigUpdates, keys: seq<EnvKey>)
    requires forall i, j :: 0 <= i < j < |keys| ==> Rank(keys[i]) < Rank(keys[j])
    ensures forall i :: 0 <= i < |Edits(u, keys)| ==> Edits(u, keys)[i].0 in keys
    ensures forall i, j :: 0 <= i < j < |Edits(u, keys)| ==> Rank(Edits(u, keys)[i].0) < Rank(Edits(u, keys)[j].0)
    decreases |keys|
  {
    if |keys| > 0 {
      var init := keys[..|keys| - 1];
      var last := keys[|keys| - 1];
      EditsInKeyOrder(u, init);
      var prev := Edits(u, init);
      var tail := EditFor(u, last);
      var edits := prev + tail;
      assert Edits(u, keys) == edits;
      forall i | 0 <= i < |prev|
        ensures prev[i].0 in keys && Rank(prev[i].0) < Rank(last)
      {
        assert prev[i].0 in init;
        var j :| 0 <= j < |init| && init[j] == prev[i].0;
        assert keys[j] == init[j];
      }
      forall i | 0 <= i < |edits|
        ensures edits[i].0 in keys
      {
        if i < |prev| {
          assert edits[i] == prev[i];
        } else {
          assert edits[i] == tail[i - |prev|];
        }
      }
      forall i, j | 0 <= i < j < |edits|
        ensures Rank(edits[i].0) < Rank(edits[j].0)
      {
        assert edits[i] == prev[i];
        if j >= |prev| {
          assert edits[j] == tail[j - |prev|];
        } else {
          assert edits[j] == prev[j];
        }
      }
    }
  }

  /** Position `i` of the write order holds the key of rank `i`. */
  lemma RankOfIndex(i: nat)
    requires i < |EnvKeys|
    ensures Rank(EnvKeys[i]) == i
  {
    if i == 0 {} else if i == 1 {} else if i == 2 {} else if i == 3 {} else if i == 4 {}
    else if i == 5 {} else if i == 6 {} else if i == 7 {} else if i == 8 {} else if i == 9 {}
  }

  /** Exactly the truthy fields among `keys` are written, each with the value the handler computes for it. */
  lemma {:induction false} EditsExactlyTruthy(u: ConfigUpdates, keys: seq<EnvKey>, k: EnvKey, value: string)
    ensures (k, value) in Edits(u, keys) <==> k in keys && FieldFor(u, k) == Some(value)
    decreases |keys|
  {
    if |keys| > 0 {
      var init := keys[..|keys| - 1];
      EditsExactlyTruthy(u, init, k, value);
      assert keys == init + [keys[|keys| - 1]];
      assert Edits(u, keys) == Edits(u, init) + EditFor(u, keys[|keys| - 1]);
    }
  }

  /**
    * Every field the handler knows is written exactly when it is truthy, and the
    * settings are written in the fixed key order.
    */
  lemma WriteOrder(u: ConfigUpdates, k: EnvKey, value: string)
    ensures (k, value) in Edits(u, EnvKeys) <==> FieldFor(u, k) == Some(value)
    ensures var edits := Edits(u, EnvKeys);
      forall i, j :: 0 <= i < j < |edits| ==> Rank(edits[i].0) < Rank(edits[j].0)
  {
    EditsExactlyTruthy(u, EnvKeys, k, value);
    assert EnvKeys[Rank(k)] == k;
    forall i, j | 0 <= i < j < |EnvKeys|
      ensures Rank(EnvKeys[i]) < Rank(EnvKeys[j])
    {
      RankOfIndex(i);
      RankOfIndex(j);
    }
    EditsInKeyOrder(u, EnvKeys);
  }

  /** An origin array is written comma-joined, even when it is empty; an empty origin string is skipped. */
  lemma OriginsWritten(u: ConfigUpdates, origins: seq<string>)
    requires u.connector.Some?
    ensures u.connector.value.allowedOrigins == Some(OriginList(origins)) ==>
      FieldFor(u, ConnectorAllowedOrigins) == Some(Join(origins, ','))
    ensures u.connector.value.allowedOrigins == Some(OriginText("")) ==>
      FieldFor(u, ConnectorAllowedOrigins) == None
  {
  }

  /** A port or TTL of zero is falsy and left as it was in the file. */
  lemma ZeroNumbersSkipped(u: ConfigUpdates)
    requires u.connector.Some?
    ensures u.connector.value.port == Some(0) ==> FieldFor(u, ConnectorPort) == None
    ensures u.connector.value.sessionTtlSeconds == Some(0) ==> FieldFor(u, SessionTtl) == None
  {
  }
}
