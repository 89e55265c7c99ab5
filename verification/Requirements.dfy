/** What the managed host is required to do, in terms of the data alone: bytes, hashes, fields, numbers and
    letters. Nothing that carries out an operation uses these definitions; the lemmas tie them to the
    definitions that do, in both directions. */
module Requirements {
  import opened Basics
  import opened Metadata
  import opened Protocol

  // Letters

  predicate Over(s: string, alphabet: string) { forall i | 0 <= i < |s| :: s[i] in alphabet }

  const DECIMAL := "0123456789"
  const HEXADECIMAL := "0123456789abcdef"
  const LETTERS := "abcdefghijklmnopqrstuvwxyz"

  predicate Hexadecimal(s: string, n: nat) { |s| == n && Over(s, HEXADECIMAL) }

  lemma DecimalDigits(c: char)
    ensures '0' <= c <= '9' <==> c in DECIMAL
  {
    if '0' <= c <= '9' {
      assert DECIMAL[c as int - '0' as int] == c;
    }
  }

  lemma HexadecimalDigits(c: char)
    ensures IsHexDigit(c) <==> c in HEXADECIMAL
  {
    if '0' <= c <= '9' {
      assert HEXADECIMAL[c as int - '0' as int] == c;
    } else if 'a' <= c <= 'f' {
      assert HEXADECIMAL[c as int - 'a' as int + 10] == c;
    }
  }

  lemma IsHexIff(s: string, n: nat)
    ensures IsHex(s, n) <==> Hexadecimal(s, n)
  {
    hide IsHexDigit, HEXADECIMAL;
    forall i | 0 <= i < |s| ensures IsHexDigit(s[i]) <==> s[i] in HEXADECIMAL {
      HexadecimalDigits(s[i]);
    }
  }

  lemma SmallLetters(c: char)
    ensures 'a' <= c <= 'z' <==> c in LETTERS
  {
    if 'a' <= c <= 'z' {
      assert LETTERS[c as int - 'a' as int] == c;
    }
  }

  /** An account name: a letter or underscore, then up to 31 letters, digits, underscores and hyphens. */
  lemma IsUserIff(s: string)
    ensures IsUser(s) <==>
      1 <= |s| <= 32 && s[0] in LETTERS + "_" && Over(s[1..], LETTERS + DECIMAL + "_-")
  {
    hide LETTERS, DECIMAL;
    forall i | 0 <= i < |s|
      ensures 'a' <= s[i] <= 'z' <==> s[i] in LETTERS
      ensures '0' <= s[i] <= '9' <==> s[i] in DECIMAL
    {
      SmallLetters(s[i]);
      DecimalDigits(s[i]);
    }
    assert forall i | 1 <= i < |s| :: s[1..][i - 1] == s[i];
  }

  // Release tags

  predicate Decimal(s: string) { s != "" && Over(s, DECIMAL) }

  /** Four numbers, as in v1.2.3-health.4. */
  predicate TagOf(s: string, a: string, b: string, c: string, d: string)
  {
    Decimal(a) && Decimal(b) && Decimal(c) && Decimal(d)
    && s == "v" + a + "." + b + "." + c + "-health." + d
  }

  lemma {:induction false} LeadingDecimal(s: string)
    ensures var n := LeadingDigits(s);
      Over(s[..n], DECIMAL) && (n < |s| ==> s[n] !in DECIMAL)
  {
    hide DECIMAL;
    if s != "" {
      DecimalDigits(s[0]);
      if '0' <= s[0] <= '9' {
        LeadingDecimal(s[1..]);
        var n := LeadingDigits(s[1..]);
        assert s[..1 + n] == [s[0]] + s[1..][..n];
      }
    }
  }

  lemma {:induction false} LeadingOf(digits: string, rest: string)
    requires Over(digits, DECIMAL) && (rest != "" ==> rest[0] !in DECIMAL)
    ensures LeadingDigits(digits + rest) == |digits|
  {
    hide DECIMAL;
    if digits == "" {
      assert digits + rest == rest;
      if rest != "" {
        DecimalDigits(rest[0]);
      }
    } else {
      DecimalDigits(digits[0]);
      assert digits[0] in DECIMAL;
      assert forall i | 0 <= i < |digits[1..]| :: digits[1..][i] == digits[1 + i];
      LeadingOf(digits[1..], rest);
      assert (digits + rest)[1..] == digits[1..] + rest;
    }
  }

  /** Numbers with these separators between them. */
  predicate Joined(s: string, numbers: seq<string>, separators: seq<string>)
    decreases |separators|
  {
    && |numbers| == |separators| + 1 && Decimal(numbers[0])
    && if separators == [] then s == numbers[0]
       else
         && numbers[0] + separators[0] <= s
         && Joined(s[|numbers[0]| + |separators[0]|..], numbers[1..], separators[1..])
  }

  lemma JoinFirst(s: string, numbers: seq<string>, separators: seq<string>, rest: string)
    requires numbers != [] && separators != [] && Decimal(numbers[0])
    requires s == numbers[0] + separators[0] + rest && Joined(rest, numbers[1..], separators[1..])
    ensures Joined(s, numbers, separators)
  {
    hide Decimal;
    assert s[|numbers[0]| + |separators[0]|..] == rest;
  }

  lemma {:induction false} Split(s: string, separators: seq<string>) returns (numbers: seq<string>)
    requires NumbersSeparatedBy(s, separators)
    ensures Joined(s, numbers, separators)
    decreases |separators|
  {
    hide Over;
    var n := LeadingDigits(s);
    LeadingDecimal(s);
    if separators == [] {
      assert s[..n] == s;
      numbers := [s];
    } else {
      var tail := s[n + |separators[0]|..];
      var rest := Split(tail, separators[1..]);
      numbers := [s[..n]] + rest;
      assert numbers[1..] == rest;
      FirstNumber(s, n, separators[0]);
      JoinFirst(s, numbers, separators, tail);
    }
  }

  lemma FirstNumber(s: string, n: nat, separator: string)
    requires n <= |s| && separator <= s[n..]
    ensures s == s[..n] + separator + s[n + |separator|..]
  {
  }

  lemma {:induction false} Unsplit(s: string, numbers: seq<string>, separators: seq<string>)
    requires Joined(s, numbers, separators)
    requires forall i | 0 <= i < |separators| :: separators[i] != "" && separators[i][0] !in DECIMAL
    ensures NumbersSeparatedBy(s, separators)
    decreases |separators|
  {
    hide DECIMAL;
    var n := |numbers[0]|;
    assert s == numbers[0] + s[n..];
    if separators == [] {
      LeadingOf(numbers[0], "");
      assert numbers[0] + "" == s;
    } else {
      assert separators[0] <= s[n..];
      LeadingOf(numbers[0], s[n..]);
      assert forall i | 0 <= i < |separators[1..]| :: separators[1..][i] == separators[i + 1];
      Unsplit(s[n + |separators[0]|..], numbers[1..], separators[1..]);
    }
  }

  /** The tag form in one equation. */
  lemma IsTagIff(s: string)
    ensures IsTag(s) <==> exists a, b, c, d :: TagOf(s, a, b, c, d)
  {
    hide DECIMAL, NumbersSeparatedBy;
    if IsTag(s) {
      var numbers := Split(s[1..], TAG_SEPARATORS);
      FourJoined(s, numbers);
      assert TagOf(s, numbers[0], numbers[1], numbers[2], numbers[3]);
    }
    forall a, b, c, d | TagOf(s, a, b, c, d) ensures IsTag(s) {
      JoinedFour(s, a, b, c, d);
      SeparatorsAreNoDigits();
      Unsplit(s[1..], [a, b, c, d], TAG_SEPARATORS);
    }
  }

  lemma SeparatorsAreNoDigits()
    ensures forall i | 0 <= i < |TAG_SEPARATORS| :: TAG_SEPARATORS[i] != "" && TAG_SEPARATORS[i][0] !in DECIMAL
  {
  }

  lemma FirstJoined(s: string, numbers: seq<string>, separators: seq<string>) returns (rest: string)
    requires Joined(s, numbers, separators) && separators != []
    ensures s == numbers[0] + separators[0] + rest && Joined(rest, numbers[1..], separators[1..])
    ensures Decimal(numbers[0])
  {
    hide Decimal;
    rest := s[|numbers[0]| + |separators[0]|..];
  }

  lemma ThreeSeparators(s: string, n: seq<string>, x: string, y: string, z: string)
    requires Joined(s, n, [x, y, z])
    ensures |n| == 4 && Decimal(n[0]) && Decimal(n[1]) && Decimal(n[2]) && Decimal(n[3])
    ensures s == n[0] + x + (n[1] + y + (n[2] + z + n[3]))
  {
    hide Decimal;
    var r1 := FirstJoined(s, n, [x, y, z]);
    assert [x, y, z][1..] == [y, z] && [y, z][1..] == [z] && [z][1..] == [];
    var r2 := FirstJoined(r1, n[1..], [y, z]);
    var r3 := FirstJoined(r2, n[1..][1..], [z]);
    assert n[1..][1..][1..][0] == n[3] && n[1..][1..][0] == n[2] && n[1..][0] == n[1];
  }

  lemma FourJoined(s: string, numbers: seq<string>)
    requires "v" <= s && Joined(s[1..], numbers, TAG_SEPARATORS)
    ensures |numbers| == 4 && TagOf(s, numbers[0], numbers[1], numbers[2], numbers[3])
  {
    hide Decimal, Joined;
    ThreeSeparators(s[1..], numbers, ".", ".", "-health.");
    assert s == "v" + s[1..];
  }

  lemma JoinThree(a: string, b: string, c: string, d: string, x: string, y: string, z: string)
    requires Decimal(a) && Decimal(b) && Decimal(c) && Decimal(d)
    ensures Joined(a + x + (b + y + (c + z + d)), [a, b, c, d], [x, y, z])
  {
    hide Decimal;
    assert [x, y, z][1..] == [y, z] && [y, z][1..] == [z] && [z][1..] == [];
    assert [a, b, c, d][1..] == [b, c, d] && [b, c, d][1..] == [c, d] && [c, d][1..] == [d];
    JoinFirst(c + z + d, [c, d], [z], d);
    JoinFirst(b + y + (c + z + d), [b, c, d], [y, z], c + z + d);
    JoinFirst(a + x + (b + y + (c + z + d)), [a, b, c, d], [x, y, z], b + y + (c + z + d));
  }

  lemma JoinedFour(s: string, a: string, b: string, c: string, d: string)
    requires TagOf(s, a, b, c, d)
    ensures "v" <= s && Joined(s[1..], [a, b, c, d], TAG_SEPARATORS)
  {
    hide Decimal, Joined;
    JoinThree(a, b, c, d, ".", ".", "-health.");
    assert s[1..] == a + "." + (b + "." + (c + "-health." + d));
  }

  // Manifests

  /** What release metadata must say, whatever the clock. */
  ghost predicate Acceptable(m: Manifest, platform: string)
  {
    && m.schema == 1 && m.stateSchema == 1 && m.capabilities == ["system.status"]
    && 1 <= m.sequence <= 9007199254740991
    && 1 <= m.issuedAt < m.expiresAt <= 9007199254740991 && m.expiresAt - m.issuedAt <= 604800
    && (exists a, b, c, d :: TagOf(m.release, a, b, c, d))
    && Hexadecimal(m.sourceCommit, 40) && Hexadecimal(m.sourceManifest, 64)
    && |m.revoked| <= 1000 && (forall i | 0 <= i < |m.revoked| :: Hexadecimal(m.revoked[i], 64))
    && platform in m.artefacts
    && forall p | p in m.artefacts :: KnownPlatform(p) && TwoExecutables(m.artefacts[p])
  }

  predicate KnownPlatform(p: string) { p == "linux-amd64" || p == "linux-arm64" || p == "darwin-arm64" }

  predicate KnownRole(role: string) { role == "keybroker" || role == "keybroker-mcp" }

  ghost predicate TwoExecutables(roles: map<string, Artefact>)
  {
    && (forall role :: role in roles <==> KnownRole(role))
    && forall role | role in roles :: Hexadecimal(roles[role].sha256, 64) && 1 <= roles[role].size <= 33554432
  }

  lemma TwoExecutablesIff(roles: map<string, Artefact>)
    ensures ArtefactsOk(roles) <==> TwoExecutables(roles)
  {
    hide Hexadecimal, IsHex;
    forall role | role in roles ensures IsHex(roles[role].sha256, 64) <==> Hexadecimal(roles[role].sha256, 64) {
      IsHexIff(roles[role].sha256, 64);
    }
    assert roles.Keys == ROLES <==> forall role :: role in roles <==> KnownRole(role);
  }

  /** The manager's own check of metadata demands exactly this. */
  lemma AcceptableIff(m: Manifest, platform: string)
    ensures WellFormed(m, platform) <==> Acceptable(m, platform)
  {
    hide Hexadecimal, IsHex, IsTag, TagOf, TwoExecutables, ArtefactsOk;
    IsTagIff(m.release);
    IsHexIff(m.sourceCommit, 40);
    IsHexIff(m.sourceManifest, 64);
    forall i | 0 <= i < |m.revoked| ensures IsHex(m.revoked[i], 64) <==> Hexadecimal(m.revoked[i], 64) {
      IsHexIff(m.revoked[i], 64);
    }
    forall p | p in m.artefacts ensures ArtefactsOk(m.artefacts[p]) <==> TwoExecutables(m.artefacts[p]) {
      TwoExecutablesIff(m.artefacts[p]);
    }
    assert m.artefacts.Keys <= PLATFORMS <==> forall p | p in m.artefacts :: KnownPlatform(p);
  }

  // Authentication

  /** The channel's answer is an envelope around these bytes, and their hash is approved or the enrolled key
      signed them, by the judgement of the pinned verifier. */
  predicate Authentic(trust: Trust, policy: Policy, verifier: Bytes, answer: Fetch, raw: Bytes)
  {
    && answer.Got? && |answer.data| <= 65536 && trust.open(answer.data).Some?
    && var e := trust.open(answer.data).value;
    && e.payload == Some(raw)
    && (|| trust.digest(raw) in policy.approved
        || (&& Hexadecimal(policy.publicKey, 64) && Hexadecimal(e.signature, 128)
            && trust.digest(verifier) == policy.verifierSha
            && trust.signed(policy.publicKey, raw, e.signature)))
  }

  lemma AuthenticIff(trust: Trust, policy: Policy, verifier: Bytes, answer: Fetch, raw: Bytes)
    requires answer.Got? && |answer.data| <= 65536 && trust.open(answer.data).Some?
    ensures Authenticate(trust, policy, trust.open(answer.data).value, verifier) == Returned(raw)
      <==> Authentic(trust, policy, verifier, answer, raw)
  {
    hide Hexadecimal, IsHex;
    IsHexIff(policy.publicKey, 64);
    IsHexIff(trust.open(answer.data).value.signature, 128);
  }

  // Stored releases

  /** The directory holds both executables of the platform, byte for byte by hash and length, read-only. */
  ghost predicate Holds(trust: Trust, platform: string, dir: Directory, m: Manifest)
  {
    platform in m.artefacts &&
    forall role | KnownRole(role) ::
      && role in m.artefacts[platform] && role in dir.files
      && trust.digest(dir.files[role].data) == m.artefacts[platform][role].sha256
      && |dir.files[role].data| == m.artefacts[platform][role].size
      && !dir.files[role].writable
  }

  /** The release directory named sha holds this manifest, which hashes to its name and is acceptable, and
      what it describes. */
  ghost predicate Keeps(env: Env, store: map<string, Directory>, sha: string, raw: Bytes, m: Manifest)
  {
    && sha in store && store[sha].manifest == Some(raw) && env.trust.digest(raw) == sha
    && |raw| <= 65536 && env.trust.parse(raw) == Some(m) && Acceptable(m, env.platform)
    && Holds(env.trust, env.platform, store[sha], m)
  }

  /** Full verification of a stored release is exactly this. */
  lemma VerifiedIff(env: Env, store: map<string, Directory>, sha: string)
    ensures Verified(env, store, sha) <==> exists raw, m :: Keeps(env, store, sha, raw, m)
  {
    hide Acceptable, WellFormed, TwoExecutables;
    if sha in store && store[sha].manifest.Some? && Decode(env.trust, store[sha].manifest.value).Some? {
      var raw := store[sha].manifest.value;
      var m := ManifestOf(env, raw);
      AcceptableIff(m, env.platform);
      if Acceptable(m, env.platform) {
        HasBothRoles(m, env.platform);
      }
      assert Verified(env, store, sha) <==> Keeps(env, store, sha, raw, m);
    }
  }

  lemma HasBothRoles(m: Manifest, platform: string)
    requires Acceptable(m, platform)
    ensures platform in m.artefacts && forall role :: role in m.artefacts[platform] <==> KnownRole(role)
  {
    hide TagOf, Hexadecimal;
  }

  lemma IntactIff(env: Env, store: map<string, Directory>, sha: string, clock: int)
    ensures Intact(env, store, sha, clock) <==>
      exists raw, m :: Keeps(env, store, sha, raw, m) && m.issuedAt - 60 <= clock
  {
    hide Keeps, Verified;
    VerifiedIff(env, store, sha);
    forall raw, m | Keeps(env, store, sha, raw, m)
      ensures sha in store && store[sha].manifest == Some(raw) && Decode(env.trust, raw) == Some(m)
    {
      KeptManifest(env, store, sha, raw, m);
    }
  }

  lemma KeptManifest(env: Env, store: map<string, Directory>, sha: string, raw: Bytes, m: Manifest)
    requires Keeps(env, store, sha, raw, m)
    ensures sha in store && store[sha].manifest == Some(raw) && Decode(env.trust, raw) == Some(m)
  {
    hide Acceptable, Holds;
  }

  /** A release's name fixes its contents: two stores in which it verifies hold the same manifest and the same
      executables, or two of the byte strings they hold are a collision. */
  lemma NameFixesContents(
    env: Env, one: map<string, Directory>, other: map<string, Directory>, sha: string)
    requires Verified(env, one, sha) && Verified(env, other, sha)
    ensures one[sha].manifest.Some? && other[sha].manifest.Some?
    ensures var raw, raw' := one[sha].manifest.value, other[sha].manifest.value;
      || (raw != raw' && env.trust.digest(raw) == env.trust.digest(raw'))
      || (raw == raw' && forall role | KnownRole(role) ::
            && role in one[sha].files && role in other[sha].files
            && var data, data' := one[sha].files[role].data, other[sha].files[role].data;
               data == data' || (data != data' && env.trust.digest(data) == env.trust.digest(data')))
  {
    hide Acceptable;
    VerifiedIff(env, one, sha);
    VerifiedIff(env, other, sha);
  }

  // The live proof

  /** The answers of a healthy service: four commands succeed and three are denied; the one capability is
      status; and status is allowed, well, and reports the release and source of the manifest. */
  predicate RightAnswers(env: Env, executable: Bytes, m: Manifest)
  {
    && env.answers(executable, executable, Wait).code == 0
    && env.answers(executable, executable, Capabilities).code == 0
    && env.answers(executable, executable, Capabilities).capabilities == ["system.status"]
    && env.answers(executable, executable, CheckStatus).code == 0
    && var status := env.answers(executable, executable, InvokeStatus);
    && status.code == 0 && status.allowed && status.status == "ok"
    && status.release == m.release && status.source == m.sourceManifest
    && env.answers(executable, executable, RevealCredential).code == 3
    && env.answers(executable, executable, ListZones).code == 3
    && env.answers(executable, executable, ExecuteSsh).code == 3
  }

  lemma ProvesIff(env: Env, executable: Bytes, m: Manifest)
    ensures Proves(env, executable, m) <==> RightAnswers(env, executable, m)
  {
    forall c: Command ensures Right(c, env.answers(executable, executable, c), m) || !RightAnswers(env, executable, m) {
      match c {
        case Wait =>
        case Capabilities =>
        case CheckStatus =>
        case InvokeStatus =>
        case RevealCredential =>
        case ListZones =>
        case ExecuteSsh =>
      }
    }
    if Proves(env, executable, m) {
      assert Right(Wait, env.answers(executable, executable, Wait), m);
      assert Right(Capabilities, env.answers(executable, executable, Capabilities), m);
      assert Right(CheckStatus, env.answers(executable, executable, CheckStatus), m);
      assert Right(InvokeStatus, env.answers(executable, executable, InvokeStatus), m);
      assert Right(RevealCredential, env.answers(executable, executable, RevealCredential), m);
      assert Right(ListZones, env.answers(executable, executable, ListZones), m);
      assert Right(ExecuteSsh, env.answers(executable, executable, ExecuteSsh), m);
    }
  }

  // What the manager may take up, and what it then records

  /** Fresh, timely, neither revoked by itself nor quarantined, and nothing against the installed release. */
  ghost predicate Takeable(env: Env, s: Installed, raw: Bytes, m: Manifest, now: int)
  {
    var sha := env.trust.digest(raw);
    && |raw| <= 65536 && env.trust.parse(raw) == Some(m) && Acceptable(m, env.platform)
    && m.issuedAt - 60 <= now < m.expiresAt && s.lastVerifiedAt - 60 <= now
    && sha !in m.revoked && sha !in s.failed && s.current !in s.revoked
    && (m.sequence > s.sequence || (m.sequence == s.sequence && sha == s.metadata))
  }

  lemma AdmitsIff(env: Env, s: Installed, raw: Bytes, now: int)
    ensures Admits(env, s, raw, now) <==> exists m :: Takeable(env, s, raw, m, now)
  {
    hide Acceptable, WellFormed;
    if Decode(env.trust, raw).Some? {
      AcceptableIff(ManifestOf(env, raw), env.platform);
      assert Admits(env, s, raw, now) <==> Takeable(env, s, raw, ManifestOf(env, raw), now);
    }
  }

  function AlsoRevoked(s: Installed, m: Manifest): set<string> { s.revoked + set x | x in m.revoked }

  /** The record of another release: its place in the sequence and its revocations, and no lease. */
  function Noticed(s: Installed, sha: string, m: Manifest): Installed
  {
    s.(sequence := m.sequence, metadata := sha, revoked := AlsoRevoked(s, m))
  }

  /** The record of the release already installed renews its lease. */
  function Renewal(s: Installed, m: Manifest, now: int): Installed
  {
    s.(sequence := m.sequence, metadata := s.current, revoked := AlsoRevoked(s, m),
       lastVerifiedAt := now, expiresAt := m.expiresAt)
  }

  /** The record of a completed upgrade. */
  function UpgradedTo(s: Installed, sha: string, m: Manifest, now: int): Installed
  {
    Installed(s.schema, sha, Some(s.current), m.sequence, sha, now, m.expiresAt, AlsoRevoked(s, m), s.failed)
  }

  lemma RecordsAre(env: Env, s: Installed, raw: Bytes, m: Manifest, now: int)
    requires Takeable(env, s, raw, m, now)
    ensures Readable(env, raw) && ManifestOf(env, raw) == m
    ensures var sha := env.trust.digest(raw);
      if sha == s.current && s.current !in m.revoked then Merged(env, s, raw, now) == Renewal(s, m, now)
      else
        && Merged(env, s, raw, now) == Noticed(s, sha, m)
        && Promoted(env, Merged(env, s, raw, now), raw, now) == UpgradedTo(s, sha, m, now)
  {
    hide Acceptable, WellFormed;
    AcceptableIff(m, env.platform);
  }
}
