/** Validation of create requests, which rewrites the request in place, and the environment built from one. */
module Validation {
  import opened Common
  import opened Names
  import opened Hostnames

  datatype Config = Config(domainSuffix: string, allowed: seq<string>, defaultMemory: int, defaultCpu: real)

  /** A request's fields. */
  datatype Fields = Fields(
    deploymentId: string, projectId: string, hostname: string, aliases: seq<string>, image: string,
    databaseName: string, username: string, memory: int, cpu: real, healthPath: string, timeout: int,
    environment: map<string, string>,
    adminName: string, adminEmail: string, adminPassword: string, internalSecret: string)

  datatype Problem =
    | BadDeploymentId | BadProjectId | BadHostname | TooManyAliases | BadAlias | AliasIsHostname | DuplicateAlias
    | BadImage | BadDatabaseName | BadUsername | SameNames | BadResources | BadHealthPath | BadTimeout
    | TooManyVariables | BadBootstrap
    | BadVariable(key: string)

  // ---- Environment keys ----

  /** envRE. */
  predicate IsEnvironmentKey(s: string) {
    && 1 <= |s| <= 128
    && ('A' <= s[0] <= 'Z' || s[0] == '_')
    && forall i | 0 <= i < |s| :: 'A' <= s[i] <= 'Z' || IsDigit(s[i]) || s[i] == '_'
  }

  const RESERVED: set<string> := {
    "PGHOST", "PGPORT", "PGDATABASE", "PGUSER", "PGPASSWORD", "PGPASSWORD_FILE", "DATABASE_URL",
    "DB_PASSWORD_FILE", "APP_KEY_FILE", "PANEL_BOOTSTRAP_FILE", "CENTRALCLOUD_INTERNAL_SECRET_FILE", "PANEL_MANAGED",
    "APP_ENV", "APP_URL", "CENTRALPANEL_MODE", "CLOUD_PROJECT_ID"
  }

  const SENSITIVE: set<string> := {
    "PASSWORD", "PASSWD", "TOKEN", "SECRET", "CREDENTIAL", "CREDENTIALS", "KEY", "AUTHORIZATION"
  }

  /** isSensitiveEnvironmentKey. */
  predicate IsSensitive(key: string) {
    || key == "DATABASE_URL" || key == "APP_KEY" || key == "DB_PASSWORD"
    || exists i :: 0 <= i < |Split(key, '_')| && Split(key, '_')[i] in SENSITIVE
  }

  predicate StandsBetween(key: string, before: string, word: string, behind: string) {
    && key == before + word + behind
    && (before == "" || before[|before| - 1] == '_') && (behind == "" || behind[0] == '_')
  }

  /** The word stands in the key between underscores or its ends. */
  ghost predicate HasWord(key: string, word: string) {
    exists before, behind :: StandsBetween(key, before, word, behind)
  }

  lemma {:induction false} JoinParts(a: seq<string>, b: seq<string>, sep: string)
    requires a != [] && b != []
    ensures Join(a + b, sep) == Join(a, sep) + sep + Join(b, sep)
  {
    if |a| == 1 {
      assert (a + b)[1..] == b;
    } else {
      JoinParts(a[1..], b, sep);
      assert (a + b)[1..] == a[1..] + b;
      assert a[0] + sep + (Join(a[1..], sep) + sep + Join(b, sep)) == (a[0] + sep + Join(a[1..], sep)) + sep + Join(b, sep);
    }
  }

  lemma JoinAt(parts: seq<string>, sep: string, k: nat)
    requires k < |parts|
    ensures Join(parts, sep) ==
      (if k == 0 then "" else Join(parts[..k], sep) + sep) + parts[k] + (if k + 1 == |parts| then "" else sep + Join(parts[k + 1..], sep))
  {
    var tail := parts[k..];
    assert Join(tail, sep) == parts[k] + (if k + 1 == |parts| then "" else sep + Join(parts[k + 1..], sep)) by {
      assert tail[0] == parts[k] && tail[1..] == parts[k + 1..];
      if k + 1 < |parts| {
        assert Join(tail, sep) == parts[k] + sep + Join(tail[1..], sep);
      }
    }
    hide Join;
    if k == 0 {
      assert tail == parts;
    } else {
      assert parts == parts[..k] + tail;
      JoinParts(parts[..k], tail, sep);
    }
  }

  lemma {:induction false} SplitParts(a: string, sep: char, b: string)
    ensures Split(a + [sep] + b, sep) == Split(a, sep) + Split(b, sep)
  {
    var s := a + [sep] + b;
    if a == [] {
      assert s == [sep] + b && s[1..] == b;
      assert Split(a, sep) == [""];
    } else {
      SplitParts(a[1..], sep, b);
      assert s[1..] == a[1..] + [sep] + b && s[0] == a[0];
      SplitHead(s, sep);
      SplitHead(a, sep);
      SecondParts(a[0], sep, Split(a[1..], sep), Split(b, sep));
    }
  }

  /** One step of splitting. */
  function Prefixed(c: char, sep: char, rest: seq<string>): seq<string>
    requires rest != []
  {
    if c == sep then [""] + rest else [[c] + rest[0]] + rest[1..]
  }

  lemma SplitHead(s: string, sep: char)
    requires s != []
    ensures Split(s, sep) == Prefixed(s[0], sep, Split(s[1..], sep))
  {
  }

  lemma SecondParts(c: char, sep: char, rest: seq<string>, more: seq<string>)
    requires rest != []
    ensures Prefixed(c, sep, rest + more) == Prefixed(c, sep, rest) + more
  {
    assert (rest + more)[0] == rest[0] && (rest + more)[1..] == rest[1..] + more;
  }

  lemma {:induction false} SplitWord(word: string, sep: char)
    requires sep !in word
    ensures Split(word, sep) == [word]
  {
    if word != [] {
      SplitWord(word[1..], sep);
      assert word == [word[0]] + word[1..];
    }
  }

  lemma WordStands(before: string, word: string, behind: string)
    requires (before == "" || before[|before| - 1] == '_') && (behind == "" || behind[0] == '_')
    ensures HasWord(before + word + behind, word)
  {
    assert StandsBetween(before + word + behind, before, word, behind);
  }

  lemma PartHasPlace(key: string, k: nat)
    requires k < |Split(key, '_')|
    ensures HasWord(key, Split(key, '_')[k])
  {
    var parts := Split(key, '_');
    JoinSplit(key, '_');
    JoinAt(parts, "_", k);
    var before := if k == 0 then "" else Join(parts[..k], "_") + "_";
    var behind := if k + 1 == |parts| then "" else "_" + Join(parts[k + 1..], "_");
    WordStands(before, parts[k], behind);
  }

  lemma WordSplits(word: string, behind: string)
    requires '_' !in word && (behind == "" || behind[0] == '_')
    ensures Split(word + behind, '_')[0] == word
  {
    SplitWord(word, '_');
    if behind == "" {
      assert word + behind == word;
    } else {
      assert word + behind == word + ['_'] + behind[1..];
      SplitParts(word, '_', behind[1..]);
    }
  }

  lemma PlaceSplits(before: string, word: string, behind: string)
    requires (before == "" || before[|before| - 1] == '_') && (behind == "" || behind[0] == '_') && '_' !in word
    ensures exists k :: 0 <= k < |Split(before + word + behind, '_')| && Split(before + word + behind, '_')[k] == word
  {
    hide Split;
    var key, tail := before + word + behind, word + behind;
    WordSplits(word, behind);
    if before == "" {
      assert key == tail;
      assert Split(key, '_')[0] == word;
    } else {
      var a := before[..|before| - 1];
      assert before == a + ['_'];
      assert key == a + ['_'] + tail;
      SplitParts(a, '_', tail);
      assert Split(key, '_')[|Split(a, '_')|] == word;
    }
  }

  lemma PlaceIsPart(key: string, word: string)
    requires HasWord(key, word) && '_' !in word
    ensures exists k :: 0 <= k < |Split(key, '_')| && Split(key, '_')[k] == word
  {
    hide Split;
    var before, behind :| StandsBetween(key, before, word, behind);
    PlaceSplits(before, word, behind);
  }

  /** A key is sensitive exactly when it is one of three, or one of the eight words stands in it on its own. */
  lemma SensitiveIff(key: string)
    ensures IsSensitive(key) <==>
      key in {"DATABASE_URL", "APP_KEY", "DB_PASSWORD"}
      || (exists word :: word in {"PASSWORD", "PASSWD", "TOKEN", "SECRET", "CREDENTIAL", "CREDENTIALS", "KEY", "AUTHORIZATION"} && HasWord(key, word))
  {
    forall k | 0 <= k < |Split(key, '_')| ensures HasWord(key, Split(key, '_')[k]) {
      PartHasPlace(key, k);
    }
    forall word | word in SENSITIVE && HasWord(key, word)
      ensures exists k :: 0 <= k < |Split(key, '_')| && Split(key, '_')[k] == word
    {
      PlaceIsPart(key, word);
    }
  }

  predicate VariableAccepted(key: string, value: string, allowed: seq<string>) {
    IsEnvironmentKey(key) && key !in RESERVED && !IsSensitive(key) && key in allowed && |value| <= 4096
  }

  // ---- The normal form ----

  function TrimDot(s: string): string {
    if s != "" && s[|s| - 1] == '.' then s[..|s| - 1] else s
  }

  function NormalHost(s: string): string {
    Lower(TrimDot(s))
  }

  function NormalAliases(aliases: seq<string>): seq<string> {
    seq(|aliases|, i requires 0 <= i < |aliases| => NormalHost(aliases[i]))
  }

  function Normalize(f: Fields, c: Config): Fields {
    f.(deploymentId := Lower(f.deploymentId),
       projectId := Lower(f.projectId),
       hostname := NormalHost(f.hostname),
       aliases := NormalAliases(f.aliases),
       memory := if f.memory == 0 then c.defaultMemory else f.memory,
       cpu := if f.cpu == 0.0 then c.defaultCpu else f.cpu,
       timeout := if f.timeout == 0 then 60 else f.timeout)
  }

  predicate HasSuffix(s: string, suffix: string) {
    |s| >= |suffix| && s[|s| - |suffix|..] == suffix
  }

  predicate InDomain(hostname: string, suffix: string) {
    MatchesHostPattern(hostname) && (hostname == suffix || HasSuffix(hostname, "." + suffix))
  }

  lemma SuffixIsLabels(s: string, suffix: string)
    ensures HasSuffix(s, "." + suffix) <==> exists front :: front != [] && Split(s, '.') == front + Split(suffix, '.')
  {
    hide Split;
    if HasSuffix(s, "." + suffix) {
      var a := s[..|s| - |suffix| - 1];
      assert s == a + ("." + suffix) == a + ['.'] + suffix;
      SplitParts(a, '.', suffix);
    }
    if front :| front != [] && Split(s, '.') == front + Split(suffix, '.') {
      JoinSplit(s, '.');
      JoinSplit(suffix, '.');
      JoinParts(front, Split(suffix, '.'), ".");
      assert s == Join(front, ".") + "." + suffix;
      assert s[|s| - |"." + suffix|..] == "." + suffix;
    }
  }

  /** A hostname is in the domain exactly when it has at least two labels and these are the domain's own, or some before
      them: whole labels count, not characters. */
  lemma InDomainIff(hostname: string, suffix: string)
    ensures InDomain(hostname, suffix) <==>
      && |Split(hostname, '.')| >= 2 && AreLabels(Split(hostname, '.'))
      && exists front :: Split(hostname, '.') == front + Split(suffix, '.')
  {
    hide Split, AreLabels;
    SuffixIsLabels(hostname, suffix);
    if hostname == suffix {
      assert Split(hostname, '.') == [] + Split(suffix, '.');
    }
    if front :| Split(hostname, '.') == front + Split(suffix, '.') {
      if front == [] {
        assert [] + Split(suffix, '.') == Split(suffix, '.');
        JoinSplit(hostname, '.');
        JoinSplit(suffix, '.');
      }
    }
  }

  predicate AliasesAccepted(aliases: seq<string>, hostname: string) {
    && |aliases| <= 1
    && (forall i | 0 <= i < |aliases| :: ValidHostname(aliases[i]) && aliases[i] != hostname)
  }

  predicate BootstrapAccepted(f: Fields) {
    && (exists i :: 0 <= i < |f.adminName| && !IsSpace(f.adminName[i])) && |f.adminName| <= 255
    && '@' in f.adminEmail && |f.adminEmail| <= 255
    && 12 <= |f.adminPassword| <= 4096
    && 32 <= |f.internalSecret| <= 4096
  }

  predicate HealthPathAccepted(path: string) {
    path != "" && path[0] == '/' && '\r' !in path && '\n' !in path
  }

  predicate EnvironmentAccepted(environment: map<string, string>, allowed: seq<string>) {
    |environment| <= 128 && forall k | k in environment :: VariableAccepted(k, environment[k], allowed)
  }

  /** What is required of a normalised request. `imageOk` is the verdict on the image reference. */
  predicate Accepted(f: Fields, c: Config, imageOk: bool) {
    && IsUuid(f.deploymentId) && IsUuid(f.projectId)
    && InDomain(f.hostname, c.domainSuffix)
    && AliasesAccepted(f.aliases, f.hostname)
    && imageOk
    && IsDatabaseIdentifier(f.databaseName) && IsDatabaseIdentifier(f.username) && f.databaseName != f.username
    && f.memory >= 0x400_0000 && f.cpu > 0.0
    && HealthPathAccepted(f.healthPath)
    && 1 <= f.timeout <= 600
    && BootstrapAccepted(f)
    && EnvironmentAccepted(f.environment, c.allowed)
  }

  class CreateRequest {
    var fields: Fields

    constructor (fields: Fields)
      ensures this.fields == fields
    {
      this.fields := fields;
    }

    /** Rewrites the aliases and reports what is wrong with them. */
    method ValidateAliases() returns (problems: seq<Problem>)
      modifies this
      ensures fields == old(fields).(aliases := NormalAliases(old(fields.aliases)))
      ensures problems == [] <==> AliasesAccepted(fields.aliases, fields.hostname)
      ensures problems == [] ==>
        |fields.aliases| <= 1 && forall i | 0 <= i < |fields.aliases| :: ValidHostname(fields.aliases[i]) && fields.aliases[i] != fields.hostname
    {
      problems := if |fields.aliases| > 1 then [TooManyAliases] else [];
      var aliases: seq<string> := [];
      var seen: set<string> := {};
      for i := 0 to |fields.aliases|
        invariant fields == old(fields)
        invariant aliases == NormalAliases(fields.aliases[..i])
        invariant i == 0 ==> seen == {}
        invariant |fields.aliases| > 1 ==> problems != []
        invariant |fields.aliases| <= 1 ==>
          (problems == [] <==> forall k | 0 <= k < i :: ValidHostname(aliases[k]) && aliases[k] != fields.hostname)
      {
        var alias := NormalHost(fields.aliases[i]);
        ghost var earlier := aliases;
        if !ValidHostname(alias) {
          problems := problems + [BadAlias];
        } else if alias == fields.hostname {
          problems := problems + [AliasIsHostname];
        } else if alias in seen {
          problems := problems + [DuplicateAlias];
        } else {
          seen := seen + {alias};
        }
        aliases := aliases + [alias];
        assert aliases == NormalAliases(fields.aliases[..i + 1]);
        assert forall k | 0 <= k < i :: aliases[k] == earlier[k];
        assert aliases[i] == alias;
      }
      assert fields.aliases[..|fields.aliases|] == fields.aliases;
      fields := fields.(aliases := aliases);
    }

    method ValidateEnvironment(allowed: seq<string>) returns (problems: seq<Problem>)
      ensures problems == [] <==> EnvironmentAccepted(fields.environment, allowed)
      ensures problems == [] <==>
        && |fields.environment| <= 128
        && forall k | k in fields.environment ::
             IsEnvironmentKey(k) && k !in RESERVED && !IsSensitive(k) && k in allowed && |fields.environment[k]| <= 4096
    {
      problems := if |fields.environment| > 128 then [TooManyVariables] else [];
      var left := fields.environment.Keys;
      while left != {}
        invariant left <= fields.environment.Keys
        invariant problems == [] <==>
          |fields.environment| <= 128
          && forall k | k in fields.environment && k !in left :: VariableAccepted(k, fields.environment[k], allowed)
        decreases |left|
      {
        var key :| key in left;
        if !VariableAccepted(key, fields.environment[key], allowed) {
          problems := problems + [BadVariable(key)];
        }
        left := left - {key};
      }
    }

    /** The identifiers and the hostname. */
    method ValidateIdentity(c: Config) returns (problems: seq<Problem>)
      modifies this
      ensures fields == old(fields).(
        deploymentId := Lower(old(fields.deploymentId)),
        projectId := Lower(old(fields.projectId)),
        hostname := NormalHost(old(fields.hostname)))
      ensures problems == [] <==>
        IsUuid(fields.deploymentId) && IsUuid(fields.projectId) && InDomain(fields.hostname, c.domainSuffix)
    {
      hide IsUuid, InDomain, NormalHost, Lower;
      fields := fields.(
        deploymentId := Lower(fields.deploymentId),
        projectId := Lower(fields.projectId),
        hostname := NormalHost(fields.hostname));
      problems := [];
      if !IsUuid(fields.deploymentId) {
        problems := problems + [BadDeploymentId];
      }
      if !IsUuid(fields.projectId) {
        problems := problems + [BadProjectId];
      }
      if !InDomain(fields.hostname, c.domainSuffix) {
        problems := problems + [BadHostname];
      }
    }

    /** The image and the database names, which are not rewritten. */
    method ValidateReferences(imageOk: bool) returns (problems: seq<Problem>)
      ensures problems == [] <==>
        && imageOk && IsDatabaseIdentifier(fields.databaseName) && IsDatabaseIdentifier(fields.username)
        && fields.databaseName != fields.username && HealthPathAccepted(fields.healthPath) && BootstrapAccepted(fields)
      ensures problems == [] ==>
        && fields.healthPath != "" && fields.healthPath[0] == '/' && '\r' !in fields.healthPath && '\n' !in fields.healthPath
        && |fields.adminName| <= 255 && '@' in fields.adminEmail && |fields.adminEmail| <= 255
        && 12 <= |fields.adminPassword| <= 4096 && 32 <= |fields.internalSecret| <= 4096
    {
      BootstrapTells(fields);
      hide IsDatabaseIdentifier, BootstrapAccepted;
      problems := [];
      if !imageOk {
        problems := problems + [BadImage];
      }
      if !IsDatabaseIdentifier(fields.databaseName) {
        problems := problems + [BadDatabaseName];
      }
      if !IsDatabaseIdentifier(fields.username) {
        problems := problems + [BadUsername];
      }
      if fields.databaseName == fields.username {
        problems := problems + [SameNames];
      }
      if !HealthPathAccepted(fields.healthPath) {
        problems := problems + [BadHealthPath];
      }
      if !BootstrapAccepted(fields) {
        problems := problems + [BadBootstrap];
      }
    }

    /** Resources and timeout, with their defaults. */
    method ValidateLimits(c: Config) returns (problems: seq<Problem>)
      modifies this
      ensures fields == old(fields).(
        memory := if old(fields.memory) == 0 then c.defaultMemory else old(fields.memory),
        cpu := if old(fields.cpu) == 0.0 then c.defaultCpu else old(fields.cpu),
        timeout := if old(fields.timeout) == 0 then 60 else old(fields.timeout))
      ensures problems == [] <==> fields.memory >= 0x400_0000 && fields.cpu > 0.0 && 1 <= fields.timeout <= 600
    {
      problems := [];
      if fields.memory == 0 {
        fields := fields.(memory := c.defaultMemory);
      }
      if fields.cpu == 0.0 {
        fields := fields.(cpu := c.defaultCpu);
      }
      if fields.memory < 0x400_0000 || fields.cpu <= 0.0 {
        problems := problems + [BadResources];
      }
      if fields.timeout == 0 {
        fields := fields.(timeout := 60);
      }
      if fields.timeout < 1 || fields.timeout > 600 {
        problems := problems + [BadTimeout];
      }
    }

    /** ValidateCreate: the request is normalised, and no problem is reported exactly when it is then acceptable. */
    method Validate(c: Config, imageOk: bool) returns (problems: seq<Problem>)
      modifies this
      ensures fields == Normalize(old(fields), c)
      ensures problems == [] <==> Accepted(fields, c, imageOk)
    {
      hide AliasesAccepted, EnvironmentAccepted, BootstrapAccepted, HealthPathAccepted, InDomain, IsUuid, IsDatabaseIdentifier;
      hide NormalAliases, NormalHost, Lower;
      var identity := ValidateIdentity(c);
      var aliases := ValidateAliases();
      var references := ValidateReferences(imageOk);
      ghost var before := fields;
      var limits := ValidateLimits(c);
      SameBootstrap(before, fields);
      var environment := ValidateEnvironment(c.allowed);
      problems := identity + aliases + references + limits + environment;
    }
  }

  lemma BootstrapTells(f: Fields)
    ensures BootstrapAccepted(f) ==>
      && |f.adminName| <= 255 && '@' in f.adminEmail && |f.adminEmail| <= 255
      && 12 <= |f.adminPassword| <= 4096 && 32 <= |f.internalSecret| <= 4096
  {
  }

  lemma SameBootstrap(f: Fields, g: Fields)
    requires f.adminName == g.adminName && f.adminEmail == g.adminEmail
    requires f.adminPassword == g.adminPassword && f.internalSecret == g.internalSecret
    ensures BootstrapAccepted(f) <==> BootstrapAccepted(g)
  {
  }

  // ---- The normal form ----

  predicate EndsWithDot(s: string) {
    s != "" && s[|s| - 1] == '.'
  }

  lemma NormalHostAgain(s: string)
    ensures NormalHost(NormalHost(s)) == NormalHost(s) <==> !EndsWithDot(NormalHost(s))
  {
    LowerAgain(TrimDot(s));
    LowerAgain(TrimDot(NormalHost(s)));
    if !EndsWithDot(NormalHost(s)) {
      assert TrimDot(NormalHost(s)) == NormalHost(s);
    }
  }

  lemma LowerAgain(s: string)
    ensures Lower(Lower(s)) == Lower(s)
  {
  }

  /** Normalising twice is normalising once, exactly when no host ends with a dot after the first time. */
  lemma NormalizeAgain(f: Fields, c: Config)
    ensures var n := Normalize(f, c);
      Normalize(n, c) == n <==> !EndsWithDot(n.hostname) && forall i | 0 <= i < |n.aliases| :: !EndsWithDot(n.aliases[i])
  {
    hide NormalHost, EndsWithDot;
    LowerAgain(f.deploymentId);
    LowerAgain(f.projectId);
    NormalHostAgain(f.hostname);
    var n := Normalize(f, c);
    forall i | 0 <= i < |f.aliases|
      ensures NormalHost(n.aliases[i]) == n.aliases[i] <==> !EndsWithDot(n.aliases[i])
    {
      NormalHostAgain(f.aliases[i]);
    }
    if Normalize(n, c) == n {
      assert NormalAliases(n.aliases) == n.aliases;
    }
    if forall i | 0 <= i < |n.aliases| :: !EndsWithDot(n.aliases[i]) {
      assert NormalAliases(n.aliases) == n.aliases;
    }
  }

  lemma LabelsEndWithoutDot(s: string)
    requires AreLabels(Split(s, '.'))
    ensures !EndsWithDot(s)
  {
    if EndsWithDot(s) {
      DotLeavesEmptyPart(s);
    }
  }

  lemma {:induction false} DotLeavesEmptyPart(s: string)
    requires EndsWithDot(s)
    ensures Split(s, '.')[|Split(s, '.')| - 1] == ""
  {
    if |s| > 1 {
      DotLeavesEmptyPart(s[1..]);
    } else {
      assert s == ".";
    }
  }

  /** An accepted request is in normal form: validating it again accepts it unchanged. */
  lemma AcceptedIsNormal(f: Fields, c: Config, imageOk: bool)
    requires Accepted(Normalize(f, c), c, imageOk)
    ensures Normalize(Normalize(f, c), c) == Normalize(f, c)
    ensures Accepted(Normalize(Normalize(f, c), c), c, imageOk)
  {
    var n := Normalize(f, c);
    LabelsEndWithoutDot(n.hostname);
    forall i | 0 <= i < |n.aliases| ensures !EndsWithDot(n.aliases[i]) {
      assert ValidHostname(n.aliases[i]);
      LabelsEndWithoutDot(n.aliases[i]);
    }
    hide Normalize, Accepted, EndsWithDot;
    NormalizeAgain(f, c);
  }

  /** An accepted request's rule can be rendered exactly when its hostname has at most 253 characters and is no IPv4
      address; its alias can always be. */
  lemma AcceptedRenders(f: Fields, c: Config, imageOk: bool)
    requires Accepted(f, c, imageOk)
    ensures var hosts := [f.hostname] + f.aliases;
      (forall i | 0 <= i < |hosts| :: ValidHostname(hosts[i])) <==> |f.hostname| <= 253 && !IsIPv4(f.hostname)
  {
    var hosts := [f.hostname] + f.aliases;
    LabelsAlphabet(f.hostname);
    assert f.hostname != "" by {
      assert Split("", '.') == [""];
    }
    assert ValidHostname(f.hostname) <==> |f.hostname| <= 253 && !IsIPv4(f.hostname);
    assert hosts[0] == f.hostname && forall i | 0 < i < |hosts| :: hosts[i] == f.aliases[i - 1];
    hide ValidHostname, IsIPv4, MatchesHostPattern, BootstrapAccepted, EnvironmentAccepted;
  }

  // ---- The container's environment ----

  /** What the agent sets for every panel. */
  datatype Site = Site(panelHost: string, gateway: string, port: string)

  function PostgresHost(site: Site): string {
    if site.panelHost == "" then site.gateway else site.panelHost
  }

  function Managed(f: Fields, site: Site): map<string, string> {
    map[
      "PGHOST" := PostgresHost(site),
      "PGPORT" := site.port,
      "PGDATABASE" := f.databaseName,
      "PGUSER" := f.username,
      "PGPASSWORD_FILE" := "/run/secrets/postgres_password",
      "DB_PASSWORD_FILE" := "/run/secrets/postgres_password",
      "APP_KEY_FILE" := "/run/secrets/app_key",
      "PANEL_BOOTSTRAP_FILE" := "/run/secrets/panel_bootstrap.json",
      "CENTRALCLOUD_INTERNAL_SECRET_FILE" := "/run/secrets/internal_secret",
      "PANEL_MANAGED" := "true",
      "APP_ENV" := "production",
      "APP_URL" := "https://" + f.hostname,
      "CENTRALPANEL_MODE" := "centralcloud",
      "CLOUD_PROJECT_ID" := f.projectId]
  }

  /** The environment part of spec: the user's variables are copied one by one, then the managed ones are set. */
  method BuildEnvironment(f: Fields, site: Site) returns (env: map<string, string>)
    ensures env == f.environment + Managed(f, site)
  {
    env := map[];
    var left := f.environment.Keys;
    while left != {}
      invariant left <= f.environment.Keys
      invariant env == map k | k in f.environment && k !in left :: f.environment[k]
      decreases |left|
    {
      var key :| key in left;
      env := env[key := f.environment[key]];
      left := left - {key};
    }
    assert env == f.environment;
    env := env + Managed(f, site);
  }

  /** Where the panel finds its database, its name and its secrets, whatever the user's variables are. */
  lemma PanelIsTold(f: Fields, site: Site, env: map<string, string>)
    requires env == f.environment + Managed(f, site)
    ensures "PGHOST" in env && env["PGHOST"] == if site.panelHost == "" then site.gateway else site.panelHost
    ensures "PGPORT" in env && env["PGPORT"] == site.port
    ensures "PGDATABASE" in env && env["PGDATABASE"] == f.databaseName && "PGUSER" in env && env["PGUSER"] == f.username
    ensures "APP_URL" in env && env["APP_URL"] == "https://" + f.hostname
    ensures "CLOUD_PROJECT_ID" in env && env["CLOUD_PROJECT_ID"] == f.projectId
    ensures "PGPASSWORD_FILE" in env && env["PGPASSWORD_FILE"] == "/run/secrets/postgres_password"
    ensures "DB_PASSWORD_FILE" in env && env["DB_PASSWORD_FILE"] == "/run/secrets/postgres_password"
    ensures "APP_KEY_FILE" in env && env["APP_KEY_FILE"] == "/run/secrets/app_key"
    ensures "PANEL_BOOTSTRAP_FILE" in env && env["PANEL_BOOTSTRAP_FILE"] == "/run/secrets/panel_bootstrap.json"
    ensures "CENTRALCLOUD_INTERNAL_SECRET_FILE" in env && env["CENTRALCLOUD_INTERNAL_SECRET_FILE"] == "/run/secrets/internal_secret"
  {
    ManagedWins(f.environment, Managed(f, site));
  }

  lemma ManagedWins(user: map<string, string>, managed: map<string, string>)
    ensures forall k | k in managed :: k in user + managed && (user + managed)[k] == managed[k]
  {
  }

  lemma ManagedIsReserved(f: Fields, site: Site)
    ensures Managed(f, site).Keys <= RESERVED
  {
  }

  /** For an accepted request the environment is a disjoint union: every variable of the user's keeps its value, and
      every managed one has its own. */
  lemma EnvironmentIsDisjoint(f: Fields, c: Config, imageOk: bool, site: Site)
    requires Accepted(f, c, imageOk)
    ensures var env, managed := f.environment + Managed(f, site), Managed(f, site);
      && f.environment.Keys !! managed.Keys
      && env.Keys == f.environment.Keys + managed.Keys
      && (forall k | k in f.environment :: env[k] == f.environment[k])
      && (forall k | k in managed :: env[k] == managed[k])
  {
    hide Managed;
    ManagedIsReserved(f, site);
    forall k | k in f.environment ensures k !in RESERVED {
      assert VariableAccepted(k, f.environment[k], c.allowed);
    }
    hide *;
    DisjointUnion(f.environment, Managed(f, site), RESERVED);
  }

  lemma DisjointUnion(user: map<string, string>, managed: map<string, string>, reserved: set<string>)
    requires managed.Keys <= reserved && forall k | k in user :: k !in reserved
    ensures user.Keys !! managed.Keys && (user + managed).Keys == user.Keys + managed.Keys
    ensures forall k | k in user :: (user + managed)[k] == user[k]
    ensures forall k | k in managed :: (user + managed)[k] == managed[k]
  {
  }

  /** A variable as Docker takes it. */
  function PrintVariable(key: string, value: string): string {
    key + "=" + value
  }

  /** Distinct variables stay distinct in the printed list, because no accepted key holds an equals sign. */
  lemma VariablesAreInjective(k: string, v: string, l: string, w: string)
    requires IsEnvironmentKey(k) && IsEnvironmentKey(l)
    ensures PrintVariable(k, v) == PrintVariable(l, w) <==> k == l && v == w
  {
    if PrintVariable(k, v) == PrintVariable(l, w) {
      var s := PrintVariable(k, v);
      assert s[|k|] == '=' && s[|l|] == '=';
      assert forall i | 0 <= i < |k| :: s[i] == k[i];
      assert forall i | 0 <= i < |l| :: s[i] == l[i];
      assert |k| == |l|;
      assert s[..|k|] == k && s[..|l|] == l && s[|k| + 1..] == v && s[|l| + 1..] == w;
    }
  }
}
