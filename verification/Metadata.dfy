/** Release metadata: authentication, structural checks and the validity window. */
module Metadata {
  import opened Basics

  const MAX_META := 65536
  const MAX_BINARY := 32 * 1024 * 1024
  const MAX_INT := 0x1F_FFFF_FFFF_FFFF
  const DAY := 86400
  const SLACK := 60
  const PLATFORMS := {"linux-amd64", "linux-arm64", "darwin-arm64"}
  const ROLES := {"keybroker", "keybroker-mcp"}

  datatype Artefact = Artefact(sha256: string, size: int)

  datatype Manifest = Manifest(
    schema: int, sequence: int, release: string, sourceCommit: string, sourceManifest: string,
    stateSchema: int, capabilities: seq<string>, issuedAt: int, expiresAt: int,
    revoked: seq<string>, artefacts: map<string, map<string, Artefact>>)

  datatype Envelope = Envelope(payload: Option<Bytes>, signature: string)

  datatype Policy = Policy(
    schema: int, ownerUid: int, ownerUser: string, platform: string, approved: set<string>,
    publicKey: string, verifierSha: string, offlineGrace: int, enabled: bool)

  /** What a download yields. */
  datatype Fetch = Got(data: Bytes) | Unavailable | Rejected

  predicate IsUser(s: string)
  {
    && 1 <= |s| <= 32
    && ('a' <= s[0] <= 'z' || s[0] == '_')
    && forall i | 1 <= i < |s| :: 'a' <= s[i] <= 'z' || '0' <= s[i] <= '9' || s[i] == '_' || s[i] == '-'
  }

  /** The hash, the decoders and the signature check, none of which is modelled further. */
  datatype Trust = Trust(
    digest: Bytes -> Sha,
    parse: Bytes -> Option<Manifest>,
    open: Bytes -> Option<Envelope>,
    signed: (string, Bytes, string) -> bool)

  /** The proof commands, each sent to the running service by a client executable. */
  datatype Command = Wait | Capabilities | CheckStatus | InvokeStatus | RevealCredential | ListZones | ExecuteSsh

  /** The exit code of a command, and the fields of its output that the proof looks at. */
  datatype Answer = Answer(
    code: int, capabilities: seq<string>, allowed: bool, status: string, release: string, source: string)

  /** The platform, and how a client and a service made from two executables answer each command. */
  datatype Env = Env(trust: Trust, platform: string, answers: (Bytes, Bytes, Command) -> Answer)

  const COMMANDS := [Wait, Capabilities, CheckStatus, InvokeStatus, RevealCredential, ListZones, ExecuteSsh]

  /** The last three must be denied. */
  function ExpectedCode(c: Command): int
  {
    if c.RevealCredential? || c.ListZones? || c.ExecuteSsh? then 3 else 0
  }

  predicate Right(c: Command, a: Answer, m: Manifest)
  {
    && a.code == ExpectedCode(c)
    && (c.Capabilities? ==> a.capabilities == ["system.status"])
    && (c.InvokeStatus? ==>
          a.allowed && a.status == "ok" && a.release == m.release && a.source == m.sourceManifest)
  }

  /** A service from this executable, asked by a client from the same one, gives every right answer. */
  predicate Proves(env: Env, executable: Bytes, m: Manifest)
  {
    forall c: Command :: Right(c, env.answers(executable, executable, c), m)
  }

  /** Two different inputs with the same hash. */
  predicate Collide(digest: Bytes -> Sha, a: Bytes, b: Bytes) { a != b && digest(a) == digest(b) }

  function Decode(trust: Trust, raw: Bytes): Option<Manifest>
  {
    if |raw| > MAX_META then None else trust.parse(raw)
  }

  function LeadingDigits(s: string): (n: nat)
    ensures n <= |s|
  {
    if s != "" && '0' <= s[0] <= '9' then 1 + LeadingDigits(s[1..]) else 0
  }

  /** One number, then each separator followed by one more number, then the end. */
  predicate NumbersSeparatedBy(s: string, separators: seq<string>)
    decreases |separators|
  {
    var n := LeadingDigits(s);
    && n > 0
    && if separators == [] then n == |s|
       else separators[0] <= s[n..] && NumbersSeparatedBy(s[n + |separators[0]|..], separators[1..])
  }

  const TAG_SEPARATORS := [".", ".", "-health."]

  predicate IsTag(s: string)
  {
    "v" <= s && NumbersSeparatedBy(s[1..], TAG_SEPARATORS)
  }

  const RELEASE := "v0.1.0-health.5"

  lemma LastNumber(s: string, d: char)
    requires s == [d] && '0' <= d <= '9'
    ensures NumbersSeparatedBy(s, [])
  {
    assert s[1..] == "";
  }

  lemma OneMoreNumber(s: string, d: char, rest: string, separators: seq<string>)
    requires separators != [] && separators[0] != "" && !('0' <= separators[0][0] <= '9')
    requires '0' <= d <= '9' && s == [d] + separators[0] + rest && NumbersSeparatedBy(rest, separators[1..])
    ensures NumbersSeparatedBy(s, separators)
  {
    assert s[1..] == separators[0] + rest;
    assert s[1..][0] == separators[0][0];
    assert LeadingDigits(s[1..]) == 0 && LeadingDigits(s) == 1;
    assert s[1 + |separators[0]|..] == rest;
  }

  function FourNumbers(a: char, b: char, c: char, d: char, separators: seq<string>): string
    requires |separators| == 3
  {
    [a] + separators[0] + ([b] + separators[1] + ([c] + separators[2] + [d]))
  }

  lemma FourNumbersRead(a: char, b: char, c: char, d: char, separators: seq<string>)
    requires |separators| == 3
    requires forall i | 0 <= i < 3 :: separators[i] != "" && !('0' <= separators[i][0] <= '9')
    requires '0' <= a <= '9' && '0' <= b <= '9' && '0' <= c <= '9' && '0' <= d <= '9'
    ensures NumbersSeparatedBy(FourNumbers(a, b, c, d, separators), separators)
  {
    hide NumbersSeparatedBy;
    LastNumber([d], d);
    var third := [c] + separators[2] + [d];
    assert separators[2..][1..] == [] && separators[1..][1..] == separators[2..];
    OneMoreNumber(third, c, [d], separators[2..]);
    var second := [b] + separators[1] + third;
    OneMoreNumber(second, b, third, separators[1..]);
    OneMoreNumber([a] + separators[0] + second, a, second, separators);
  }

  /** The builder's own release tag has the required form. */
  lemma ReleaseTagReads()
    ensures IsTag(RELEASE)
  {
    hide NumbersSeparatedBy;
    FourNumbersRead('0', '1', '0', '5', TAG_SEPARATORS);
    assert RELEASE[1..] == FourNumbers('0', '1', '0', '5', TAG_SEPARATORS);
  }

  predicate ArtefactsOk(roles: map<string, Artefact>)
  {
    && roles.Keys == ROLES
    && forall role | role in roles ::
         IsHex(roles[role].sha256, 64) && InRange(roles[role].size, 1, MAX_BINARY)
  }

  predicate RevocationsOk(m: Manifest)
  {
    |m.revoked| <= 1000 && forall i | 0 <= i < |m.revoked| :: IsHex(m.revoked[i], 64)
  }

  predicate PlatformOffered(m: Manifest, platform: string)
  {
    platform in m.artefacts && m.artefacts.Keys <= PLATFORMS
  }

  predicate AllArtefactsOk(m: Manifest)
  {
    forall p | p in m.artefacts :: ArtefactsOk(m.artefacts[p])
  }

  predicate Compatible(m: Manifest)
  {
    m.schema == 1 && m.stateSchema == 1 && m.capabilities == ["system.status"]
  }

  predicate NumbersOk(m: Manifest)
  {
    InRange(m.sequence, 1, MAX_INT) && InRange(m.issuedAt, 1, MAX_INT) && InRange(m.expiresAt, 1, MAX_INT)
  }

  /** Everything the metadata check demands that does not depend on the clock. */
  predicate WellFormed(m: Manifest, platform: string)
  {
    && Compatible(m) && NumbersOk(m)
    && 0 < m.expiresAt - m.issuedAt <= 7 * DAY
    && IsTag(m.release) && IsHex(m.sourceCommit, 40) && IsHex(m.sourceManifest, 64)
    && RevocationsOk(m) && PlatformOffered(m, platform) && AllArtefactsOk(m)
  }

  predicate Timely(m: Manifest, now: int)
  {
    m.issuedAt - SLACK <= now < m.expiresAt
  }

  /** The metadata check in the order the manager makes it. */
  function ReadManifest(env: Env, raw: Bytes, now: int): (r: Result<Manifest>)
    ensures r.Returned? <==>
      Decode(env.trust, raw).Some? &&
      WellFormed(Decode(env.trust, raw).value, env.platform) &&
      Timely(Decode(env.trust, raw).value, now)
    ensures r.Returned? ==> r.value == Decode(env.trust, raw).value
  {
    hide Compatible, NumbersOk, IsTag, IsHex, RevocationsOk, PlatformOffered, AllArtefactsOk;
    match Decode(env.trust, raw)
    case None => Raised(InvalidMetadata)
    case Some(m) =>
      if !Compatible(m) then Raised(Incompatible)
      else if !NumbersOk(m) then Raised(InvalidMetadata)
      else if m.issuedAt > now + SLACK || m.expiresAt <= now
              || !(0 < m.expiresAt - m.issuedAt <= 7 * DAY) then Raised(Expired)
      else if !IsTag(m.release) then Raised(InvalidMetadata)
      else if !IsHex(m.sourceCommit, 40) then Raised(InvalidMetadata)
      else if !IsHex(m.sourceManifest, 64) then Raised(InvalidMetadata)
      else if !RevocationsOk(m) then Raised(InvalidMetadata)
      else if !PlatformOffered(m, env.platform) then Raised(PlatformUnavailable)
      else if !AllArtefactsOk(m) then Raised(InvalidMetadata)
      else Returned(m)
  }

  /** Refused metadata says nothing about the installed state. */
  lemma ManifestRefusals(env: Env, raw: Bytes, now: int)
    ensures var r := ReadManifest(env, raw, now);
      !r.Died? && (r.Raised? ==> !Telling(r.error))
  {
    hide Compatible, NumbersOk, IsTag, IsHex, RevocationsOk, PlatformOffered, AllArtefactsOk;
  }

  /** A stored release is re-read at a clock clamped below its own expiry, so time running on never
      turns an accepted release away: it is accepted at every later clock, lease or no lease. */
  lemma ExpiryNeverRejectsAcceptedRelease(env: Env, raw: Bytes, accepted: int, later: int)
    requires ReadManifest(env, raw, accepted).Returned?
    requires accepted <= later
    ensures var m := ReadManifest(env, raw, accepted).value;
      ReadManifest(env, raw, Min(later, m.expiresAt - 1)) == Returned(m)
  {
  }

  /** Exactly when a stored release is accepted at the clamped clock: only a clock more than a
      minute before its issue can reject it. */
  lemma ClampedCheckIgnoresExpiry(env: Env, raw: Bytes, clock: int)
    requires Decode(env.trust, raw).Some?
    ensures var m := Decode(env.trust, raw).value;
      ReadManifest(env, raw, Min(clock, m.expiresAt - 1)).Returned? <==>
      WellFormed(m, env.platform) && m.issuedAt - SLACK <= clock
  {
  }

  /** Authenticates an envelope: reviewed bytes are pinned by hash, anything else needs the enrolled
      key, a well-formed signature and an unmodified verifier. */
  function Authenticate(trust: Trust, policy: Policy, e: Envelope, verifier: Bytes): (r: Result<Bytes>)
    ensures r.Returned? ==> e.payload == Some(r.value)
    ensures r.Returned? <==>
      && e.payload.Some?
      && (|| trust.digest(e.payload.value) in policy.approved
          || (&& IsHex(policy.publicKey, 64) && IsHex(e.signature, 128)
              && trust.digest(verifier) == policy.verifierSha
              && trust.signed(policy.publicKey, e.payload.value, e.signature)))
    ensures !r.Died? && (r.Raised? ==> !Telling(r.error))
  {
    match e.payload
    case None => Raised(InvalidEnvelope)
    case Some(raw) =>
      if trust.digest(raw) in policy.approved then Returned(raw)
      else if !IsHex(policy.publicKey, 64) then Raised(NoTrustAnchor)
      else if !IsHex(e.signature, 128) then Raised(BadSignature)
      else if trust.digest(verifier) != policy.verifierSha then Raised(VerifierChanged)
      else if !trust.signed(policy.publicKey, raw, e.signature) then Raised(BadSignature)
      else Returned(raw)
  }
}
