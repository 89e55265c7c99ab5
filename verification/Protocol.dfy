/** The durable state of one managed host and every step that may change it.

    A step is one durable effect: a rename, a symlink swap, an unlink, an audit line, or the service
    supervisor acting on its own. A crash needs no step of its own: it is a history that stops, and
    the next run starts from the disk it left. */
module Protocol {
  import opened Basics
  import opened Metadata

  datatype Installed = Installed(
    schema: int, current: string, previous: Option<string>, sequence: int, metadata: string,
    lastVerifiedAt: int, expiresAt: int, revoked: set<string>, failed: set<string>)

  /** The executable that the service runs and the proof uses. */
  const SERVER := "keybroker"

  datatype Journal = Journal(previous: string, candidate: string)

  datatype File = File(data: Bytes, writable: bool)

  datatype Directory = Directory(manifest: Option<Bytes>, files: map<string, File>)

  /** The ".new" file that an interrupted replacement leaves behind. */
  datatype Temp = InstalledNew | JournalNew | CurrentNew | StagedNew(sha: string, name: string)

  /** What an audit entry says happened. */
  datatype Note =
    | FirstInstalled       // initial health installation verified
    | Prepared             // upgrade prepared
    | Confirmed            // upgrade verified
    | Undone               // upgrade rolled back after failed proof
    | ApprovedOffline      // offline approved health use
    | Rechecked            // approved release checked
    | Completed            // completed interrupted receipt
    | Recovered            // recovered interrupted upgrade
    | Withdrawn            // installed release revoked
    | Reversed             // operator rollback

  datatype AuditEntry = AuditEntry(time: int, note: Note, release: string)

  datatype Disk = Disk(
    installed: Installed,
    journal: Option<Journal>,
    link: Option<string>,       // the release that the "current" link names
    running: Option<string>,    // the release the service loaded when it last started, if it is up
    proven: Option<string>,     // the release whose live proof succeeded since the link last moved
    store: map<string, Directory>,
    temps: set<Temp>,
    audit: seq<AuditEntry>)

  datatype Service = Undisturbed | Restarted | Stopped

  datatype Event =
    | Serviced(service: Service)
    | Left(temp: Temp)
    | Logged(entry: AuditEntry)
    | Accepted(raw: Bytes, now: int)
    | UsedOffline(now: int, grace: int)
    | Fetched(raw: Bytes, role: string)
    | Opened(sha: string)
    | StagedManifest(raw: Bytes)
    | StagedFile(raw: Bytes, role: string, data: Bytes)
    | Began(journal: Journal, operator: bool)
    | Pointed(sha: string)
    | Proved(sha: string)
    | Upgraded(raw: Bytes, now: int)
    | RolledBack
    | Quarantined(sha: string)
    | Ended

  function ManifestOf(env: Env, raw: Bytes): Manifest
    requires Decode(env.trust, raw).Some?
  {
    Decode(env.trust, raw).value
  }

  predicate Readable(env: Env, raw: Bytes)
  {
    Decode(env.trust, raw).Some? && WellFormed(ManifestOf(env, raw), env.platform)
  }

  function RevokedBy(m: Manifest): set<string> { set x | x in m.revoked }

  function Artefacts(env: Env, raw: Bytes): map<string, Artefact>
    requires Readable(env, raw)
  {
    ManifestOf(env, raw).artefacts[env.platform]
  }

  predicate FileOk(a: Artefact, f: File, digest: Bytes -> Sha)
  {
    |f.data| == a.size && digest(f.data) == a.sha256 && !f.writable
  }

  /** The release directory holds the manifest it is named after and both exact executables. */
  predicate Verified(env: Env, store: map<string, Directory>, sha: string)
  {
    && sha in store && store[sha].manifest.Some?
    && var raw := store[sha].manifest.value;
    && env.trust.digest(raw) == sha && Readable(env, raw)
    && var artefacts := Artefacts(env, raw);
    && forall role | role in artefacts ::
         role in store[sha].files && FileOk(artefacts[role], store[sha].files[role], env.trust.digest)
  }

  /** Verified, and the clock is no more than a minute before the release was issued. */
  predicate Intact(env: Env, store: map<string, Directory>, sha: string, clock: int)
  {
    Verified(env, store, sha) && ManifestOf(env, store[sha].manifest.value).issuedAt - SLACK <= clock
  }

  /** The identity that a running service reports. */
  function Identity(m: Manifest): (string, string) { (m.release, m.sourceManifest) }

  /** The release's own service gives its own client every right answer. */
  predicate SelfProves(env: Env, store: map<string, Directory>, sha: string)
  {
    && sha in store && store[sha].manifest.Some? && SERVER in store[sha].files
    && var m := Decode(env.trust, store[sha].manifest.value);
    && m.Some? && Proves(env, store[sha].files[SERVER].data, m.value)
  }

  /** The release passes verification, is the one the service runs, and gives every right answer. */
  predicate Live(env: Env, d: Disk, sha: string)
  {
    Verified(env, d.store, sha) && SelfProves(env, d.store, sha) && d.running == Some(sha)
  }

  /** Nothing about the stored release keeps it from being linked and proved. */
  predicate Usable(env: Env, store: map<string, Directory>, sha: string, clock: int)
  {
    Intact(env, store, sha, clock) && SelfProves(env, store, sha)
  }

  /** The service is down or runs what the current link names. */
  predicate Settled(d: Disk) { d.running == None || d.running == d.link }

  predicate Fresh(s: Installed, sequence: int, sha: string)
  {
    s.sequence < sequence || (s.sequence == sequence && sha == s.metadata)
  }

  predicate Admits(env: Env, s: Installed, raw: Bytes, now: int)
  {
    && Readable(env, raw)
    && var m, sha := ManifestOf(env, raw), env.trust.digest(raw);
    && Timely(m, now) && s.lastVerifiedAt - SLACK <= now
    && sha !in RevokedBy(m) && sha !in s.failed
    && Fresh(s, m.sequence, sha)
    && s.current !in s.revoked
  }

  /** The installed state after accepted metadata: revocations first, and the lease only when the
      metadata describes the release already running. */
  function Merged(env: Env, s: Installed, raw: Bytes, now: int): Installed
    requires Readable(env, raw)
  {
    var m, sha := ManifestOf(env, raw), env.trust.digest(raw);
    var noted := s.(revoked := s.revoked + RevokedBy(m), sequence := m.sequence, metadata := sha);
    if sha == s.current && s.current !in noted.revoked
    then noted.(lastVerifiedAt := now, expiresAt := m.expiresAt)
    else noted
  }

  predicate LeaseAllows(s: Installed, now: int, grace: int)
  {
    s.lastVerifiedAt - SLACK <= now <= Min(s.expiresAt, s.lastVerifiedAt + grace)
  }

  /** The metadata is the last accepted one and its revocations are already durable. */
  predicate Recorded(env: Env, d: Disk, raw: Bytes)
  {
    && Readable(env, raw)
    && env.trust.digest(raw) == d.installed.metadata
    && RevokedBy(ManifestOf(env, raw)) <= d.installed.revoked
  }

  function Promoted(env: Env, s: Installed, raw: Bytes, now: int): Installed
    requires Readable(env, raw)
  {
    var m, sha := ManifestOf(env, raw), env.trust.digest(raw);
    s.(current := sha, previous := Some(s.current), sequence := m.sequence, metadata := sha,
       lastVerifiedAt := now, expiresAt := m.expiresAt)
  }

  /** Current and previous change places; everything else stays. */
  function Exchanged(s: Installed): Installed
    requires s.previous.Some?
  {
    s.(current := s.previous.value, previous := Some(s.current))
  }

  /** When a step may happen. */
  predicate Guard(env: Env, d: Disk, e: Event)
  {
    var s := d.installed;
    match e
    case Serviced(_) => true
    case Left(_) => true
    case Logged(_) => true
    case Accepted(raw, now) => d.journal.None? && Admits(env, s, raw, now)
    case UsedOffline(now, grace) =>
      d.journal.None? && 0 <= grace <= DAY && LeaseAllows(s, now, grace) && s.current !in s.revoked
    case Fetched(raw, role) => d.journal.None? && Recorded(env, d, raw) && role in Artefacts(env, raw)
    case Opened(sha) => d.journal.None? && sha == s.metadata && sha !in d.store
    case StagedManifest(raw) =>
      && d.journal.None? && Recorded(env, d, raw)
      && env.trust.digest(raw) in d.store && d.store[env.trust.digest(raw)].manifest.None?
    case StagedFile(raw, role, data) =>
      && d.journal.None? && Recorded(env, d, raw)
      && var sha := env.trust.digest(raw);
      && sha in d.store && role !in d.store[sha].files && role in Artefacts(env, raw)
      && FileOk(Artefacts(env, raw)[role], File(data, false), env.trust.digest)
    case Began(j, operator) =>
      && d.journal.None? && j.previous == s.current && d.link == Some(s.current)
      && if operator then Some(j.candidate) == s.previous && j.candidate !in s.revoked
         else j.candidate == s.metadata && j.candidate != s.current && j.candidate !in s.failed
              && s.current !in s.revoked && Verified(env, d.store, j.candidate)
    case Pointed(sha) =>
      && d.journal.Some? && sha in {d.journal.value.previous, d.journal.value.candidate}
      && Verified(env, d.store, sha)
    case Proved(sha) => d.link == Some(sha) && Live(env, d, sha)
    case Upgraded(raw, now) =>
      && Recorded(env, d, raw)
      && var m, sha := ManifestOf(env, raw), env.trust.digest(raw);
      && d.journal == Some(Journal(s.current, sha)) && d.link == d.proven == Some(sha) && Settled(d)
      && Timely(m, now) && s.lastVerifiedAt - SLACK <= now && m.sequence == s.sequence
      && s.current !in s.revoked && sha !in s.failed && sha !in RevokedBy(m)
    case RolledBack =>
      && s.previous.Some? && s.previous.value !in s.revoked
      && d.journal == Some(Journal(s.current, s.previous.value))
      && d.link == d.proven == s.previous && Settled(d)
    case Quarantined(sha) =>
      && d.journal == Some(Journal(s.current, sha)) && sha == s.metadata
      && d.link == d.proven == Some(s.current)
    case Ended => d.journal.Some? && d.link == d.proven == Some(s.current) && Settled(d)
  }

  /** What a step does. */
  function Apply(env: Env, d: Disk, e: Event): Disk
    requires Guard(env, d, e)
  {
    var s := d.installed;
    match e
    case Serviced(service) => AfterService(d, service)
    case Left(temp) => d.(temps := d.temps + {temp})
    case Logged(entry) => d.(audit := d.audit + [entry])
    case Accepted(raw, now) => d.(installed := Merged(env, s, raw, now))
    case UsedOffline(_, _) => d
    case Fetched(_, _) => d
    case Opened(sha) => d.(store := d.store[sha := Directory(None, map[])])
    case StagedManifest(raw) =>
      var sha := env.trust.digest(raw);
      d.(store := d.store[sha := d.store[sha].(manifest := Some(raw))])
    case StagedFile(raw, role, data) =>
      var sha := env.trust.digest(raw);
      d.(store := d.store[sha := d.store[sha].(files := d.store[sha].files[role := File(data, false)])])
    case Began(j, _) => d.(journal := Some(j))
    case Pointed(sha) => d.(link := Some(sha), proven := None)
    case Proved(sha) => d.(proven := Some(sha))
    case Upgraded(raw, now) => d.(installed := Promoted(env, s, raw, now))
    case RolledBack => d.(installed := Exchanged(s))
    case Quarantined(sha) => d.(installed := s.(failed := s.failed + {sha}))
    case Ended => d.(journal := None)
  }

  /** A restart loads the release that the current link names. */
  function AfterService(d: Disk, service: Service): Disk
  {
    match service
    case Undisturbed => d
    case Restarted => d.(running := d.link)
    case Stopped => d.(running := None)
  }

  /** A transaction is open and the release it must recover to is revoked. */
  predicate Stuck(d: Disk) { d.journal.Some? && d.installed.current in d.installed.revoked }

  /** A transaction is open and an interrupted link move left its temporary link behind. */
  predicate Jammed(d: Disk) { d.journal.Some? && CurrentNew in d.temps }

  /** Recovery will always refuse this transaction. */
  predicate Blocked(d: Disk) { Stuck(d) || Jammed(d) }

  /** Steps that write the installed state. */
  predicate Writes(e: Event) { e.Accepted? || e.Upgraded? || e.RolledBack? || e.Quarantined? }

  // Histories

  /** The writes of a history, in order. */
  function WritesOf(es: seq<Event>): seq<Event>
  {
    if es == [] then []
    else WritesOf(es[..|es| - 1]) + (if Writes(es[|es| - 1]) then [es[|es| - 1]] else [])
  }

  /** What a longer history wrote beyond a shorter one. */
  lemma {:induction false} WritesBeyond(es: seq<Event>, longer: seq<Event>, k: nat)
    requires es <= longer && |es| <= k < |longer| && Writes(longer[k])
    ensures WritesOf(es) <= WritesOf(longer) && longer[k] in WritesOf(longer)[|WritesOf(es)|..]
    decreases |longer|
  {
    var init := longer[..|longer| - 1];
    WritesGrow(es, init);
    if k < |longer| - 1 {
      WritesBeyond(es, init, k);
      assert WritesOf(init)[|WritesOf(es)|..] <= WritesOf(longer)[|WritesOf(es)|..];
    } else {
      assert WritesOf(longer)[|WritesOf(init)|] == longer[k];
      assert WritesOf(longer)[|WritesOf(es)|..][|WritesOf(init)| - |WritesOf(es)|] == longer[k];
    }
  }

  lemma {:induction false} WritesGrow(es: seq<Event>, longer: seq<Event>)
    requires es <= longer
    ensures WritesOf(es) <= WritesOf(longer)
    decreases |longer|
  {
    if |es| < |longer| {
      WritesGrow(es, longer[..|longer| - 1]);
    } else {
      assert es == longer;
    }
  }

  /** Every step of the history was allowed on the disk it found. */
  ghost predicate Legal(env: Env, start: Disk, es: seq<Event>)
    decreases |es|, 0
  {
    es == [] || (
      && Legal(env, start, es[..|es| - 1])
      && Guard(env, Replay(env, start, es[..|es| - 1]), es[|es| - 1]))
  }

  /** The disk that a history leaves. */
  ghost function Replay(env: Env, start: Disk, es: seq<Event>): Disk
    requires Legal(env, start, es)
    decreases |es|, 1
  {
    if es == [] then start
    else Apply(env, Replay(env, start, es[..|es| - 1]), es[|es| - 1])
  }

  lemma LegalPrefix(env: Env, start: Disk, es: seq<Event>, i: nat)
    requires Legal(env, start, es) && i <= |es|
    ensures Legal(env, start, es[..i])
  {
    if i < |es| {
      LegalPrefix(env, start, es[..|es| - 1], i);
      assert es[..|es| - 1][..i] == es[..i];
    } else {
      assert es[..i] == es;
    }
  }

  /** The disk after the first i steps. */
  ghost function At(env: Env, start: Disk, es: seq<Event>, i: nat): Disk
    requires Legal(env, start, es) && i <= |es|
  {
    LegalPrefix(env, start, es, i);
    Replay(env, start, es[..i])
  }

  lemma AtStart(env: Env, start: Disk, es: seq<Event>)
    requires Legal(env, start, es)
    ensures At(env, start, es, 0) == start
  {
    assert es[..0] == [];
  }

  lemma Step(env: Env, start: Disk, es: seq<Event>, i: nat)
    requires Legal(env, start, es) && i < |es|
    ensures Guard(env, At(env, start, es, i), es[i])
    ensures At(env, start, es, i + 1) == Apply(env, At(env, start, es, i), es[i])
  {
    LegalPrefix(env, start, es, i + 1);
    assert es[..i + 1][..i] == es[..i];
  }

  lemma Extend(env: Env, start: Disk, es: seq<Event>, e: Event)
    requires Legal(env, start, es) && Guard(env, Replay(env, start, es), e)
    ensures Legal(env, start, es + [e])
    ensures Replay(env, start, es + [e]) == Apply(env, Replay(env, start, es), e)
  {
    assert (es + [e])[..|es|] == es;
  }

  /** The supervisor acting between a check and the effect it allows never disallows the effect. */
  lemma GuardSurvivesService(env: Env, d: Disk, service: Service, e: Event)
    requires Guard(env, d, e) && !e.Serviced? && !e.Proved?
    ensures Guard(env, AfterService(d, service), e)
    ensures Apply(env, AfterService(d, service), e)
      == Apply(env, d, e).(running := AfterService(d, service).running)
  {
  }

  // When single steps of a transaction are allowed, and what they do

  lemma BeganStep(env: Env, d: Disk, j: Journal)
    requires d.journal.None? && j.previous == d.installed.current && d.link == Some(d.installed.current)
    requires j.candidate == d.installed.metadata && j.candidate != d.installed.current
    requires j.candidate !in d.installed.failed && d.installed.current !in d.installed.revoked
    requires Verified(env, d.store, j.candidate)
    ensures Guard(env, d, Began(j, false)) && Apply(env, d, Began(j, false)) == d.(journal := Some(j))
  {
  }

  lemma PointedStep(env: Env, d: Disk, sha: string)
    requires d.journal.Some? && sha in {d.journal.value.previous, d.journal.value.candidate}
    requires Verified(env, d.store, sha)
    ensures Guard(env, d, Pointed(sha)) && Apply(env, d, Pointed(sha)) == d.(link := Some(sha), proven := None)
  {
  }

  lemma ProvedStep(env: Env, d: Disk, sha: string)
    requires d.link == Some(sha) && Live(env, d, sha)
    ensures Guard(env, d, Proved(sha)) && Apply(env, d, Proved(sha)) == d.(proven := Some(sha))
  {
  }

  lemma QuarantinedStep(env: Env, d: Disk, sha: string)
    requires d.journal == Some(Journal(d.installed.current, sha)) && sha == d.installed.metadata
    requires d.link == d.proven == Some(d.installed.current)
    ensures Guard(env, d, Quarantined(sha))
    ensures Apply(env, d, Quarantined(sha)) ==
      d.(installed := d.installed.(failed := d.installed.failed + {sha}))
  {
  }

  lemma EndedStep(env: Env, d: Disk)
    requires d.journal.Some? && d.link == d.proven == Some(d.installed.current) && Settled(d)
    ensures Guard(env, d, Ended) && Apply(env, d, Ended) == d.(journal := None)
  {
  }

  lemma OpenedStep(env: Env, d: Disk)
    requires d.journal.None? && d.installed.metadata !in d.store
    ensures Guard(env, d, Opened(d.installed.metadata))
    ensures Apply(env, d, Opened(d.installed.metadata))
      == d.(store := d.store[d.installed.metadata := Directory(None, map[])])
  {
  }

  lemma StagedManifestStep(env: Env, d: Disk, raw: Bytes)
    requires d.journal.None? && Recorded(env, d, raw)
    requires env.trust.digest(raw) in d.store && d.store[env.trust.digest(raw)].manifest.None?
    ensures Guard(env, d, StagedManifest(raw))
    ensures var sha := env.trust.digest(raw);
      Apply(env, d, StagedManifest(raw)) == d.(store := d.store[sha := d.store[sha].(manifest := Some(raw))])
  {
  }

  lemma StagedFileStep(env: Env, d: Disk, raw: Bytes, role: string, data: Bytes)
    requires d.journal.None? && Recorded(env, d, raw) && role in Artefacts(env, raw)
    requires env.trust.digest(raw) in d.store && role !in d.store[env.trust.digest(raw)].files
    requires FileOk(Artefacts(env, raw)[role], File(data, false), env.trust.digest)
    ensures Guard(env, d, StagedFile(raw, role, data))
    ensures var sha := env.trust.digest(raw);
      var after := d.store[sha].(files := d.store[sha].files[role := File(data, false)]);
      Apply(env, d, StagedFile(raw, role, data)) == d.(store := d.store[sha := after])
  {
  }

  lemma LoggedStep(env: Env, d: Disk, entry: AuditEntry)
    ensures Guard(env, d, Logged(entry))
    ensures Apply(env, d, Logged(entry)) == d.(audit := d.audit + [entry])
  {
  }

  lemma AcceptedStep(env: Env, d: Disk, raw: Bytes, now: int)
    requires d.journal.None? && Admits(env, d.installed, raw, now)
    ensures Guard(env, d, Accepted(raw, now))
    ensures Apply(env, d, Accepted(raw, now)) == d.(installed := Merged(env, d.installed, raw, now))
  {
  }

  lemma UsedOfflineStep(env: Env, d: Disk, now: int, grace: int)
    requires d.journal.None? && 0 <= grace <= DAY && LeaseAllows(d.installed, now, grace)
    requires d.installed.current !in d.installed.revoked
    ensures Guard(env, d, UsedOffline(now, grace)) && Apply(env, d, UsedOffline(now, grace)) == d
  {
  }

  lemma OperatorBeganStep(env: Env, d: Disk, j: Journal)
    requires d.journal.None? && j.previous == d.installed.current && d.link == Some(d.installed.current)
    requires Some(j.candidate) == d.installed.previous && j.candidate !in d.installed.revoked
    ensures Guard(env, d, Began(j, true)) && Apply(env, d, Began(j, true)) == d.(journal := Some(j))
  {
  }

  lemma RolledBackStep(env: Env, d: Disk)
    requires d.installed.previous.Some? && d.installed.previous.value !in d.installed.revoked
    requires d.journal == Some(Journal(d.installed.current, d.installed.previous.value))
    requires d.link == d.proven == d.installed.previous && Settled(d)
    ensures Guard(env, d, RolledBack)
    ensures Apply(env, d, RolledBack) == d.(installed := Exchanged(d.installed))
  {
  }

  lemma UpgradedStep(env: Env, d: Disk, raw: Bytes, now: int)
    requires Recorded(env, d, raw) && Timely(ManifestOf(env, raw), now)
    requires d.journal == Some(Journal(d.installed.current, env.trust.digest(raw)))
    requires d.link == d.proven == Some(env.trust.digest(raw)) && Settled(d)
    requires d.installed.lastVerifiedAt - SLACK <= now
    requires ManifestOf(env, raw).sequence == d.installed.sequence
    requires d.installed.current !in d.installed.revoked && d.installed.metadata !in d.installed.failed
    requires d.installed.metadata !in RevokedBy(ManifestOf(env, raw))
    ensures Guard(env, d, Upgraded(raw, now))
    ensures Apply(env, d, Upgraded(raw, now)) == d.(installed := Promoted(env, d.installed, raw, now))
  {
  }
}
