/** What the operations promise, said without any of the definitions that carry them out: in the terms of
    Requirements, with every number, field and address written out. */
module Promises {
  import opened Basics
  import opened Metadata
  import opened Protocol
  import opened Runs
  import opened Hosts
  import opened Reload
  import opened Requirements
  import opened Manager
  import B = Bundle
  import I = Install

  const DOWNLOADS := "https://truth.adilzuberi.com/git/adil/keybroker/releases/download/"

  /** What the channel answers to a request for at most 65536 bytes. */
  function Answer(fetch: (string, int) -> Fetch): Fetch
  {
    fetch(DOWNLOADS + "approved-health/channel.json", 65536)
  }

  // Starting

  ghost predicate ValidPolicy(p: Policy)
  {
    && p.schema == 1 && p.enabled && KnownPlatform(p.platform)
    && 1 <= p.ownerUid <= 2147483647 && 0 <= p.offlineGrace <= 86400
    && 1 <= |p.ownerUser| <= 32 && p.ownerUser[0] in LETTERS + "_"
    && Over(p.ownerUser[1..], LETTERS + DECIMAL + "_-")
    && (forall x | x in p.approved :: Hexadecimal(x, 64)) && Hexadecimal(p.verifierSha, 64)
  }

  lemma PolicyOkIff(p: Policy)
    ensures PolicyOk(p) <==> ValidPolicy(p)
  {
    hide IsHex, Hexadecimal, IsUser, LETTERS, DECIMAL;
    IsUserIff(p.ownerUser);
    IsHexIff(p.verifierSha, 64);
    forall x | x in p.approved ensures IsHex(x, 64) <==> Hexadecimal(x, 64) {
      IsHexIff(x, 64);
    }
  }

  ghost predicate ValidState(s: Installed)
  {
    && s.schema == 1 && Hexadecimal(s.current, 64)
    && (s.previous.Some? ==> Hexadecimal(s.previous.value, 64))
    && 1 <= s.sequence <= 9007199254740991
    && 1 <= s.lastVerifiedAt <= 9007199254740991 && 1 <= s.expiresAt <= 9007199254740991
    && (forall x | x in s.revoked :: Hexadecimal(x, 64)) && (forall x | x in s.failed :: Hexadecimal(x, 64))
  }

  lemma StateOkIff(s: Installed)
    ensures StateOk(s) <==> ValidState(s)
  {
    hide IsHex, Hexadecimal;
    IsHexIff(s.current, 64);
    if s.previous.Some? {
      IsHexIff(s.previous.value, 64);
    }
    forall x | x in s.revoked ensures IsHex(x, 64) <==> Hexadecimal(x, 64) {
      IsHexIff(x, 64);
    }
    forall x | x in s.failed ensures IsHex(x, 64) <==> Hexadecimal(x, 64) {
      IsHexIff(x, 64);
    }
  }

  /** A start succeeds exactly for a valid policy and a valid state whose text has at most 65536 characters,
      however its lists are ordered. */
  method Start(host: Host, policy: Policy, fetch: (string, int) -> Fetch, revoked: seq<string>, failed: seq<string>)
    returns (r: Result<Manager>)
    requires host.Valid() && policy.platform == host.env.platform
    requires Lists(revoked, host.disk.installed.revoked) && Lists(failed, host.disk.installed.failed)
    ensures r.Returned? <==>
      && ValidPolicy(policy) && ValidState(host.disk.installed)
      && |Text(host.disk.installed, revoked, failed)| <= 65536
  {
    hide ValidPolicy, ValidState, PolicyOk, StateOk, TextSize, Text;
    PolicyOkIff(policy);
    StateOkIff(host.disk.installed);
    LoadsInAnyOrder(host.disk.installed, revoked, failed);
    r := Manager.Open(host, policy, fetch);
  }

  /** The exact length of the text of a valid state. */
  lemma TextLengthInPlain(s: Installed, revoked: seq<string>, failed: seq<string>)
    requires ValidState(s) && Hexadecimal(s.metadata, 64)
    requires Lists(revoked, s.revoked) && Lists(failed, s.failed)
    ensures |Text(s, revoked, failed)| ==
      262 + |Number(s.sequence)| + |Number(s.lastVerifiedAt)| + |Number(s.expiresAt)|
      + (if s.previous == None then 0 else 62)
      + (if s.revoked == {} then 0 else 67 * |s.revoked| - 1) + (if s.failed == {} then 0 else 67 * |s.failed| - 1)
    ensures 1 <= |Number(s.sequence)| <= 16 && 1 <= |Number(s.lastVerifiedAt)| <= 16 && 1 <= |Number(s.expiresAt)| <= 16
  {
    hide Hexadecimal, ValidState, Text;
    StateOkIff(s);
    assert |s.metadata| == 64 by {
      IsHexIff(s.metadata, 64);
    }
    TextLength(s, revoked, failed);
    NumberLength(s.sequence);
    NumberLength(s.lastVerifiedAt);
    NumberLength(s.expiresAt);
  }

  // Downloads

  lemma Addresses()
    ensures CHANNEL == DOWNLOADS + "approved-health/channel.json" && ORIGIN == DOWNLOADS
  {
  }

  /** An executable is fetched from under its release's tag, by the name that the builder gave its file. */
  lemma DownloadsWhatWasBuilt(m: Manager, raw: Bytes, role: string)
    requires Readable(m.host.env, raw)
    ensures m.Url(raw, role)
      == DOWNLOADS + ManifestOf(m.host.env, raw).release + "/" + B.Binary(role, m.host.env.platform)
  {
    hide DOWNLOADS, ORIGIN;
    Addresses();
  }

  /** What a manager takes as announced is what the channel authentically answers, and nothing else. */
  lemma AnnouncedIff(m: Manager, raw: Bytes)
    ensures m.Announced() == Returned(raw)
      <==> Authentic(m.host.env.trust, m.policy, m.host.verifier, Answer(m.fetch), raw)
  {
    hide Hexadecimal, IsHex, DOWNLOADS, ORIGIN, CHANNEL, Authenticate;
    Addresses();
    var answer := Answer(m.fetch);
    if answer.Got? && |answer.data| <= 65536 && m.host.env.trust.open(answer.data).Some? {
      AuthenticIff(m.host.env.trust, m.policy, m.host.verifier, answer, raw);
    }
  }

  // Checking

  /** Who runs a check: the host's world, the policy, the pinned verifier and the channel's answer. */
  datatype Setting = Setting(env: Env, policy: Policy, verifier: Bytes, answer: Fetch)

  ghost predicate Vouched(w: Setting, raw: Bytes) { Authentic(w.env.trust, w.policy, w.verifier, w.answer, raw) }

  /** Authentic metadata that this state may take up at this clock. */
  ghost predicate TakenUp(w: Setting, was: Installed, raw: Bytes, m: Manifest, now: int)
  {
    Vouched(w, raw) && Takeable(w.env, was, raw, m, now)
  }

  /** Every state that taking it up can lead to. The installed release again: the renewal. One that revokes
      it: the notice. Any other: the notice, and then at most the quarantine or the upgrade. */
  predicate MayFollow(w: Setting, was: Installed, s': Installed, raw: Bytes, m: Manifest, now: int)
  {
    var sha := w.env.trust.digest(raw);
    var noticed := Noticed(was, sha, m);
    if was.current in m.revoked then s' == noticed
    else if sha == was.current then s' == Renewal(was, m, now)
    else s' == noticed || s' == noticed.(failed := was.failed + {sha}) || s' == UpgradedTo(was, sha, m, now)
  }

  /** What each answer of a check means. */
  ghost predicate Says(w: Setting, r: Result<Verdict>, was: Installed, d': Disk)
  {
    var s' := d'.installed;
    match r
    case Returned(OfflineApproved(now)) =>
      && w.answer == Unavailable && s' == was
      && was.lastVerifiedAt - 60 <= now <= was.expiresAt && now <= was.lastVerifiedAt + w.policy.offlineGrace
      && exists raw, m :: Keeps(w.env, d'.store, was.current, raw, m)
    case Returned(Current(now)) =>
      && (exists raw, m :: TakenUp(w, was, raw, m, now) && w.env.trust.digest(raw) == was.current
                           && was.current !in m.revoked && s' == Renewal(was, m, now))
      && exists raw, m :: Keeps(w.env, d'.store, s'.current, raw, m)
    case Returned(Upgrade(now)) =>
      && (exists raw, m :: TakenUp(w, was, raw, m, now) && w.env.trust.digest(raw) != was.current
                           && was.current !in m.revoked && s' == UpgradedTo(was, w.env.trust.digest(raw), m, now))
      && exists raw, m :: Keeps(w.env, d'.store, s'.current, raw, m)
    case Raised(ClockMovedBack(now)) => s' == was && now < was.lastVerifiedAt - 60
    case Raised(LeaseExpired(now)) =>
      && w.answer == Unavailable && s' == was
      && (now > was.expiresAt || now > was.lastVerifiedAt + w.policy.offlineGrace)
    case Raised(ChannelRevoked) =>
      s' == was && exists raw, m :: Offers(w, raw, m) && w.env.trust.digest(raw) in m.revoked
    case Raised(ReleaseQuarantined) =>
      s' == was && exists raw, m :: Offers(w, raw, m) && w.env.trust.digest(raw) in was.failed
    case Raised(ReplayOrEquivocation) =>
      && s' == was
      && exists raw, m :: Offers(w, raw, m)
           && (m.sequence < was.sequence || (m.sequence == was.sequence && w.env.trust.digest(raw) != was.metadata))
    case Raised(InstalledRevoked) =>
      if was.current in was.revoked then s' == was
      else
        exists raw, m ::
          Offers(w, raw, m) && was.current in m.revoked && s' == Noticed(was, w.env.trust.digest(raw), m)
    case Raised(UpgradeFailed) =>
      exists raw, m :: Offers(w, raw, m) &&
        var s := Noticed(was, w.env.trust.digest(raw), m);
        s' == s.(failed := s.failed + {w.env.trust.digest(raw)})
    case _ => true
  }

  /** Authentic, acceptable metadata on offer. */
  ghost predicate Offers(w: Setting, raw: Bytes, m: Manifest)
  {
    Vouched(w, raw) && |raw| <= 65536 && w.env.trust.parse(raw) == Some(m) && Acceptable(m, w.env.platform)
  }

  function SettingOf(m: Manager): Setting { Setting(m.host.env, m.policy, m.host.verifier, Answer(m.fetch)) }

  lemma AdmittedInPlain(m: Manager, was: Installed, now: int) returns (raw: Bytes, manifest: Manifest)
    requires m.Announced().Returned? && Admits(m.host.env, was, m.Announced().value, now)
    ensures raw == m.Announced().value && TakenUp(SettingOf(m), was, raw, manifest, now)
    ensures Readable(m.host.env, raw) && ManifestOf(m.host.env, raw) == manifest
    ensures var s := Merged(m.host.env, was, raw, now);
      if m.host.env.trust.digest(raw) == was.current && was.current !in manifest.revoked
      then s == Renewal(was, manifest, now)
      else
        && s == Noticed(was, m.host.env.trust.digest(raw), manifest)
        && Promoted(m.host.env, s, raw, now) == UpgradedTo(was, m.host.env.trust.digest(raw), manifest, now)
  {
    hide Authentic, Admits, Takeable, Merged, Promoted, Renewal, Noticed, UpgradedTo;
    raw := m.Announced().value;
    AnnouncedIff(m, raw);
    AdmitsIff(m.host.env, was, raw, now);
    manifest :| Takeable(m.host.env, was, raw, manifest, now);
    RecordsAre(m.host.env, was, raw, manifest, now);
  }

  lemma LandedInPlain(m: Manager, was: Installed, s': Installed, now: int)
    requires m.Landed(was, s', now) && s' != was
    ensures exists raw, manifest ::
      TakenUp(SettingOf(m), was, raw, manifest, now) && MayFollow(SettingOf(m), was, s', raw, manifest, now)
  {
    hide Authentic, Admits, Takeable;
    var raw, manifest := AdmittedInPlain(m, was, now);
  }

  lemma OffersInPlain(m: Manager) returns (raw: Bytes, manifest: Manifest)
    requires m.OffersReadable()
    ensures raw == m.Announced().value && manifest == ManifestOf(m.host.env, raw)
    ensures Offers(SettingOf(m), raw, manifest)
  {
    hide Authentic, Acceptable, WellFormed;
    raw := m.Announced().value;
    manifest := ManifestOf(m.host.env, raw);
    AnnouncedIff(m, raw);
    AcceptableIff(manifest, m.host.env.platform);
  }

  lemma OfflineInPlain(m: Manager, now: int, was: Installed, d': Disk)
    requires m.Concluded(Returned(OfflineApproved(now)), was, d')
    ensures Says(SettingOf(m), Returned(OfflineApproved(now)), was, d')
  {
    hide Keeps, Verified;
    Addresses();
    VerifiedIff(m.host.env, d'.store, was.current);
  }

  lemma CurrentInPlain(m: Manager, now: int, was: Installed, d': Disk)
    requires m.Concluded(Returned(Current(now)), was, d')
    ensures Says(SettingOf(m), Returned(Current(now)), was, d')
  {
    hide TakenUp, Keeps, Admits, Verified, Merged, Manager.Announced;
    VerifiedIff(m.host.env, d'.store, d'.installed.current);
    var raw, manifest := AdmittedInPlain(m, was, now);
    AdmissionFacts(m.host.env, was, raw, now);
    RevokedByIs(manifest, was.current);
  }

  lemma UpgradeInPlain(m: Manager, now: int, was: Installed, d': Disk)
    requires m.Concluded(Returned(Upgrade(now)), was, d')
    ensures Says(SettingOf(m), Returned(Upgrade(now)), was, d')
  {
    hide TakenUp, Keeps, Admits, Verified, Merged, Promoted, Manager.Announced;
    VerifiedIff(m.host.env, d'.store, d'.installed.current);
    var raw, manifest := AdmittedInPlain(m, was, now);
    AdmissionFacts(m.host.env, was, raw, now);
  }

  /** What a record and an upgrade leave of the two identities and of the revocations. */
  lemma AdmissionFacts(env: Env, was: Installed, raw: Bytes, now: int)
    requires Admits(env, was, raw, now)
    ensures Readable(env, raw)
    ensures var m, sha, s := ManifestOf(env, raw), env.trust.digest(raw), Merged(env, was, raw, now);
      && s.metadata == sha && s.current == was.current && (forall x | x in m.revoked :: x in s.revoked)
      && var p := Promoted(env, s, raw, now);
      && p.current == sha && p.previous == Some(was.current) && p.revoked == s.revoked
  {
    hide WellFormed;
  }

  lemma RevokedByIs(m: Manifest, sha: string)
    ensures sha in RevokedBy(m) <==> sha in m.revoked
  {
  }

  lemma RaisedInPlain(m: Manager, e: Error, was: Installed, d': Disk)
    requires Decides(e) && m.Concluded(Raised(e), was, d')
    ensures Says(SettingOf(m), Raised(e), was, d')
  {
    hide Offers, Authentic, Readable, Manager.Announced, Manager.OffersReadable;
    Addresses();
    if m.OffersReadable() {
      var raw, manifest := OffersInPlain(m);
      OfferedInPlain(m, was);
    }
  }

  lemma OfferedInPlain(m: Manager, was: Installed)
    requires m.OffersReadable()
    ensures var manifest := ManifestOf(m.host.env, m.Announced().value);
      && m.AnnouncedHash() == m.host.env.trust.digest(m.Announced().value)
      && (forall sha :: sha in m.OfferedRevocations() <==> sha in manifest.revoked)
      && m.Noted(was) == Noticed(was, m.AnnouncedHash(), manifest)
      && (m.OfferedFresh(was) <==>
            manifest.sequence > was.sequence
            || (manifest.sequence == was.sequence && m.AnnouncedHash() == was.metadata))
  {
    hide WellFormed, Manager.Announced;
    assert m.OfferedRevocations() == set x | x in ManifestOf(m.host.env, m.Announced().value).revoked;
  }

  lemma OtherwiseInPlain(w: Setting, r: Result<Verdict>, was: Installed, d': Disk)
    requires !Decided(r)
    ensures Says(w, r, was, d')
  {
  }

  /** Every acceptance that a check added to the history is of what the channel authentically answered. */
  lemma AcceptedInPlain(
    m: Manager, history: seq<Event>, longer: seq<Event>, now: int, k: nat)
    requires history <= longer && |history| <= k < |longer| && longer[k].Accepted? && m.Announced().Returned?
    requires m.Wrote(WritesOf(history), WritesOf(longer), m.Announced().value, now)
    ensures Vouched(SettingOf(m), longer[k].raw)
  {
    hide Authentic;
    WritesBeyond(history, longer, k);
    AnnouncedIff(m, m.Announced().value);
  }

  // The answer that a calm host gets

  /** What a check must answer at this clock, for each state, each answer of the channel and each manifest. */
  ghost predicate Answers(w: Setting, r: Result<Verdict>, d: Disk, now: int)
  {
    var s := d.installed;
    if s.current in s.revoked then r == Raised(InstalledRevoked)
    else if now < s.lastVerifiedAt - 60 then r == Raised(ClockMovedBack(now))
    else if w.answer == Unavailable then
      r == if now <= s.expiresAt && now <= s.lastVerifiedAt + w.policy.offlineGrace
           then Returned(OfflineApproved(now)) else Raised(LeaseExpired(now))
    else
      && ((forall raw :: !Vouched(w, raw)) ==> r.Raised? && !Decides(r.error))
      && forall raw, m | Offers(w, raw, m) ::
           if now < m.issuedAt - 60 || m.expiresAt <= now then r == Raised(Expired)
           else AnswersOffer(w, r, d, raw, m, now)
  }

  /** What it must answer to timely metadata. */
  ghost predicate AnswersOffer(w: Setting, r: Result<Verdict>, d: Disk, raw: Bytes, m: Manifest, now: int)
  {
    var s, sha := d.installed, w.env.trust.digest(raw);
    if sha in m.revoked then r == Raised(ChannelRevoked)
    else if sha in s.failed then r == Raised(ReleaseQuarantined)
    else if m.sequence < s.sequence || (m.sequence == s.sequence && sha != s.metadata)
    then r == Raised(ReplayOrEquivocation)
    else if InstalledNew in d.temps then r == Raised(LeftoverTemporary)
    else if s.current in m.revoked then r == Raised(InstalledRevoked)
    else sha == s.current ==> r == Returned(Current(now))
  }

  lemma DueInPlain(m: Manager, r: Result<Verdict>, d: Disk, now: int)
    requires m.Due(r, d, now)
    ensures Answers(SettingOf(m), r, d, now)
  {
    hide Offers, Authentic, Manager.Announced, Manager.AnnouncementDue, AnswersOffer;
    Addresses();
    var w := SettingOf(m);
    forall raw ensures m.Announced() == Returned(raw) <==> Vouched(w, raw) {
      AnnouncedIff(m, raw);
    }
    forall raw, manifest | Offers(w, raw, manifest) ensures Vouched(w, raw) {
      OfferIsVouched(w, raw, manifest);
    }
    if m.Announced().Returned? && d.installed.current !in d.installed.revoked
      && d.installed.lastVerifiedAt - 60 <= now
    {
      forall manifest | Offers(w, m.Announced().value, manifest)
        ensures
          if now < manifest.issuedAt - 60 || manifest.expiresAt <= now then r == Raised(Expired)
          else AnswersOffer(w, r, d, m.Announced().value, manifest, now)
      {
        OfferDueInPlain(m, r, d, m.Announced().value, manifest, now);
      }
    }
  }

  lemma OfferIsVouched(w: Setting, raw: Bytes, m: Manifest)
    requires Offers(w, raw, m)
    ensures Vouched(w, raw)
  {
  }

  lemma OfferDueInPlain(m: Manager, r: Result<Verdict>, d: Disk, raw: Bytes, manifest: Manifest, now: int)
    requires m.AnnouncementDue(r, d, raw, now) && Offers(SettingOf(m), raw, manifest)
    ensures
      if now < manifest.issuedAt - 60 || manifest.expiresAt <= now then r == Raised(Expired)
      else AnswersOffer(SettingOf(m), r, d, raw, manifest, now)
  {
    hide Authentic, Acceptable, Manager.SwitchDue, RevocationsOk, AllArtefactsOk, IsTag, IsHex, PlatformOffered;
    AcceptableIff(manifest, m.host.env.platform);
  }

  /** The start succeeds and nothing on this disk stops the check before it reaches the channel. */
  ghost predicate Undisputed(env: Env, policy: Policy, d: Disk, clock: int)
  {
    ValidPolicy(policy) && Restarts(d.installed) && Sturdy(env, d, clock)
  }

  // The record that it leaves

  /** The last entries of the manager's own record, latest last. */
  predicate EndsWith(d: Disk, notes: seq<(Note, string)>)
  {
    |notes| <= |d.audit| &&
    forall i | 0 <= i < |notes| ::
      var entry := d.audit[|d.audit| - |notes| + i]; (entry.note, entry.release) == notes[i]
  }

  lemma TrailEnds(before: seq<(Note, string)>, d: Disk, notes: seq<(Note, string)>)
    requires Trail(d) == before + notes
    ensures EndsWith(d, notes)
  {
    forall i | 0 <= i < |notes|
      ensures (d.audit[|before| + i].note, d.audit[|before| + i].release) == notes[i]
    {
      assert Trail(d)[|before| + i] == notes[i];
    }
  }

  /** What a decision leaves on record. */
  predicate Recorded(r: Result<Verdict>, was: Installed, d': Disk)
  {
    match r
    case Returned(OfflineApproved(_)) => EndsWith(d', [(ApprovedOffline, was.current)])
    case Returned(Current(_)) => EndsWith(d', [(Rechecked, was.current)])
    case Returned(Upgrade(_)) =>
      EndsWith(d', [(Prepared, d'.installed.current), (Confirmed, d'.installed.current)])
    case Raised(InstalledRevoked) => was.current !in was.revoked ==> EndsWith(d', [(Withdrawn, was.current)])
    case Raised(UpgradeFailed) =>
      EndsWith(d', [(Prepared, d'.installed.metadata), (Undone, d'.installed.metadata)])
    case _ => true
  }

  lemma RecordedInPlain(m: Manager, r: Result<Verdict>, was: Installed, d': Disk, before: seq<(Note, string)>)
    requires Decided(r) && m.Concluded(r, was, d')
    requires Trail(d') == before + CheckTrail(r, was, m.AnnouncedHash())
    ensures Recorded(r, was, d')
  {
    hide Admits, Verified, WellFormed, Manager.Announced, EndsWith, Trail;
    TrailEnds(before, d', CheckTrail(r, was, m.AnnouncedHash()));
    if r.Returned? && !r.value.OfflineApproved? {
      AdmissionFacts(m.host.env, was, m.Announced().value, r.value.now);
    }
  }

  /** One check, from its start. */
  method CheckOnce(host: Host, policy: Policy, fetch: (string, int) -> Fetch) returns (r: Result<Verdict>)
    requires host.Valid() && policy.platform == host.env.platform
    modifies host
    ensures host.Valid() && old(host.history) <= host.history
    ensures r.Returned? ==> ValidPolicy(policy)
    // nothing is accepted, and nothing changes the installed state, without authentic metadata
    ensures forall k | |old(host.history)| <= k < |host.history| && host.history[k].Accepted? ::
      Authentic(host.env.trust, policy, host.verifier, Answer(fetch), host.history[k].raw)
    ensures var w, was := Setting(host.env, policy, host.verifier, Answer(fetch)), old(host.disk).installed;
      host.disk.installed != was ==>
        exists raw, m, now :: TakenUp(w, was, raw, m, now) && MayFollow(w, was, host.disk.installed, raw, m, now)
    // every answer means what it says and is on record
    ensures Says(Setting(host.env, policy, host.verifier, Answer(fetch)), r, old(host.disk).installed, host.disk)
    ensures Recorded(r, old(host.disk).installed, host.disk)
    // and on a calm host it is the right one
    ensures old(host.Calm()) && Undisputed(host.env, policy, old(host.disk), old(host.clock)) ==>
        exists now :: old(host.clock) <= now <= host.clock
          && Answers(Setting(host.env, policy, host.verifier, Answer(fetch)), r, old(host.disk), now)
  {
    hide Legal, Replay, WritesOf, Guard, Apply, Authentic, TakenUp, MayFollow, Says, ValidPolicy, PolicyOk, Restarts,
         Manager.Wrote, Manager.Landed, Manager.Concluded, Manager.Due, Manager.Kept, Manager.Announced, Answer,
         Sturdy, CalmFrom, CheckTrail, RecoveryTrail, Trail, EndsWith, Answers;
    PolicyOkIff(policy);
    ghost var found, was, past, wrote := host.disk, host.disk.installed, host.history, host.writes;
    var opening := Manager.Open(host, policy, fetch);
    if !opening.Returned? {
      r := Raised(opening.error);
      OtherwiseInPlain(Setting(host.env, policy, host.verifier, Answer(fetch)), r, was, host.disk);
      return;
    }
    var m := opening.value;
    r := m.Check();
    forall k | |past| <= k < |host.history| && host.history[k].Accepted?
      ensures Vouched(SettingOf(m), host.history[k].raw)
    {
      if host.writes == wrote {
        WritesBeyond(past, host.history, k);
      } else {
        var now :| m.Wrote(wrote, host.writes, m.Announced().value, now);
        AcceptedInPlain(m, past, host.history, now, k);
      }
    }
    if host.disk.installed != was {
      ghost var now :| m.Landed(was, host.disk.installed, now);
      LandedInPlain(m, was, host.disk.installed, now);
    }
    if Decided(r) {
      RecordedInPlain(m, r, was, host.disk, Trail(found) + RecoveryTrail(found));
    }
    if old(host.Calm()) && Sturdy(host.env, found, old(host.clock)) {
      ghost var now :| old(host.clock) <= now <= host.clock && m.Due(r, found, now);
      DueInPlain(m, r, found, now);
    }
    if r.Returned? {
      match r.value {
        case OfflineApproved(now) => OfflineInPlain(m, now, was, host.disk);
        case Current(now) => CurrentInPlain(m, now, was, host.disk);
        case Upgrade(now) => UpgradeInPlain(m, now, was, host.disk);
      }
    } else if r.Raised? && Decides(r.error) {
      RaisedInPlain(m, r.error, was, host.disk);
    } else {
      OtherwiseInPlain(SettingOf(m), r, was, host.disk);
    }
  }

  // Rolling back

  /** One rollback, from its start: the previous release and the installed one change places and nothing else
      does, on condition that the previous one is not revoked, quarantined or not. */
  method RollBackOnce(host: Host, policy: Policy, fetch: (string, int) -> Fetch) returns (r: Result<()>)
    requires host.Valid() && policy.platform == host.env.platform
    modifies host
    ensures host.Valid() && old(host.history) <= host.history
    ensures forall k | |old(host.history)| <= k < |host.history| && Writes(host.history[k]) ::
      host.history[k].RolledBack?
    ensures var was, s' := old(host.disk).installed, host.disk.installed;
      s' != was || r.Returned? ==>
        && was.previous.Some? && was.previous.value !in was.revoked
        && s' == Installed(was.schema, was.previous.value, Some(was.current), was.sequence, was.metadata,
                           was.lastVerifiedAt, was.expiresAt, was.revoked, was.failed)
    ensures r.Returned? ==>
      && ValidPolicy(policy)
      && host.disk.journal == None && host.disk.link == Some(host.disk.installed.current)
      && EndsWith(host.disk, [(Reversed, host.disk.installed.current)])
  {
    hide Legal, Replay, WritesOf, Guard, Apply, ValidPolicy, PolicyOk, Restarts, CalmFrom, RecoveryTrail, Trail,
         EndsWith;
    PolicyOkIff(policy);
    ghost var found, past := host.disk, host.history;
    var m :- Manager.Open(host, policy, fetch);
    r := m.Rollback();
    forall k | |past| <= k < |host.history| && Writes(host.history[k]) ensures host.history[k].RolledBack? {
      WritesBeyond(past, host.history, k);
    }
    if r.Returned? {
      TrailEnds(Trail(found) + RecoveryTrail(found), host.disk, [(Reversed, host.disk.installed.current)]);
    }
  }

  // Recovering

  /** One recovery, from its start. It writes nothing of the installed state; when it returns there is no
      transaction, the link names the installed release, and what it ended is on record. */
  method RecoverOnce(host: Host, policy: Policy, fetch: (string, int) -> Fetch) returns (r: Result<()>)
    requires host.Valid() && policy.platform == host.env.platform
    modifies host
    ensures host.Valid() && host.disk.installed == old(host.disk).installed && host.disk.store == old(host.disk).store
    ensures forall k | |old(host.history)| <= k < |host.history| :: !Writes(host.history[k])
    ensures r.Returned? ==> host.disk.journal == None && host.disk.link == Some(host.disk.installed.current)
    ensures r.Returned? && old(host.disk).journal.Some? ==>
      var j, s := old(host.disk).journal.value, host.disk.installed;
      && s.current !in s.revoked
      && (host.disk.running == None || host.disk.running == Some(s.current))
      && if j.candidate == s.current then EndsWith(host.disk, [(Completed, j.candidate)])
         else j.previous == s.current && EndsWith(host.disk, [(Note.Recovered, j.candidate)])
  {
    hide Legal, Replay, WritesOf, Guard, Apply, PolicyOk, Restarts, CalmFrom, Trail, EndsWith;
    ghost var found, past := host.disk, host.history;
    var m :- Manager.Open(host, policy, fetch);
    r := m.Recover();
    forall k | |past| <= k < |host.history| ensures !Writes(host.history[k]) {
      if Writes(host.history[k]) {
        WritesBeyond(past, host.history, k);
      }
    }
    if r.Returned? {
      TrailEnds(Trail(found), host.disk, RecoveryTrail(found));
    }
  }

  // Committing

  /** Whatever is committed, upgrade or rollback, was verified, linked, running and gave all seven right answers
      at a moment inside its transaction. */
  lemma CommittedAnsweredRight(env: Env, start: Disk, es: seq<Event>, i: nat, k: nat) returns (x: nat)
    requires Legal(env, start, es) && Consistent(env, start)
    requires i < k < |es| && es[i].Began? && Commits(es[k])
    requires forall y | i < y < k :: !es[y].Ended?
    ensures i < x < k
    ensures var d, sha := At(env, start, es, x), es[i].journal.candidate;
      && d.link == d.running == Some(sha) && sha in d.store && "keybroker" in d.store[sha].files
      && exists raw, m ::
           Keeps(env, d.store, sha, raw, m) && RightAnswers(env, d.store[sha].files["keybroker"].data, m)
  {
    hide Legal, Replay, At, Guard, Apply, Keeps, Verified, Proves, RightAnswers;
    x := CommitFollowsProof(env, start, es, i, k);
    var d, sha := At(env, start, es, x), es[i].journal.candidate;
    VerifiedIff(env, d.store, sha);
    var raw, m :| Keeps(env, d.store, sha, raw, m);
    KeptManifest(env, d.store, sha, raw, m);
    ProvesIff(env, d.store[sha].files[SERVER].data, m);
  }

  // Building

  lemma ManifestForInPlain(commit: string, id: string, now: int, artefacts: map<string, map<string, Artefact>>)
    ensures B.ManifestFor(commit, id, now, artefacts)
      == Manifest(1, 5, "v0.1.0-health.5", commit, id, 1, ["system.status"], now, now + 604800, [], artefacts)
  {
  }

  lemma BuildsKnownPlatforms(p: string)
    ensures p in B.BUILD_PLATFORMS <==> KnownPlatform(p)
  {
    if KnownPlatform(p) {
      assert B.BUILD_PLATFORMS[0] == "darwin-arm64" && B.BUILD_PLATFORMS[1] == "linux-amd64";
      assert B.BUILD_PLATFORMS[2] == "linux-arm64";
    }
  }

  lemma BuildsKnownRoles(role: string)
    ensures role in ROLES <==> KnownRole(role)
    ensures role in B.BUILD_ROLES <==> KnownRole(role) || role == "release-verify"
  {
    assert B.BUILD_ROLES[0] == "keybroker" && B.BUILD_ROLES[1] == "keybroker-mcp";
    assert B.BUILD_ROLES[2] == "release-verify";
  }

  /** One build: the manifest field by field, and the bundle file by file. */
  method BuildOnce(
    codec: B.Codec, digest: Bytes -> Sha, compile: (string, string) -> Bytes,
    sources: Bytes, manager: Bytes, installer: Sha -> Bytes, commit: string, now: int)
    returns (b: B.Built)
    ensures b.manifest == Manifest(1, 5, "v0.1.0-health.5", commit, digest(sources), 1, ["system.status"],
                                   now, now + 604800, [], b.manifest.artefacts)
    ensures forall p :: p in b.manifest.artefacts <==> KnownPlatform(p)
    ensures forall p, role | p in b.manifest.artefacts ::
      && (role in b.manifest.artefacts[p] <==> KnownRole(role))
      && (KnownRole(role) ==>
            b.manifest.artefacts[p][role] == Artefact(digest(compile(p, role)), |compile(p, role)|))
    ensures forall p, role | KnownPlatform(p) && (KnownRole(role) || role == "release-verify") ::
      B.Binary(role, p) in b.payload && b.payload[B.Binary(role, p)] == compile(p, role)
    ensures "bootstrap.json" in b.bundle && "install.py" in b.bundle && "manifest.json" in b.payload
    ensures b.payload["manifest.json"] == codec.manifest(b.manifest)
    ensures b.bundle["install.py"] == installer(digest(b.bundle["bootstrap.json"]))
    ensures b.bundle["bootstrap.json"] == codec.bootstrap(
      B.Bootstrap(1, "v0.1.0-health.5", ["darwin-arm64", "linux-amd64", "linux-arm64"],
                  map name | name in b.payload :: digest(b.payload[name])))
  {
    hide B.Binary, B.BUILD_ROLES, B.BUILD_PLATFORMS, ROLES, KnownRole, KnownPlatform, B.ManifestFor, B.Hashes;
    b := B.Build(codec, digest, compile, sources, manager, installer, commit, now);
    ManifestForInPlain(commit, digest(sources), now,
      map p | p in B.BUILD_PLATFORMS :: B.ArtefactsOf(p, compile, digest));
    forall p ensures p in B.BUILD_PLATFORMS <==> KnownPlatform(p) {
      BuildsKnownPlatforms(p);
    }
    forall role
      ensures role in ROLES <==> KnownRole(role)
      ensures role in B.BUILD_ROLES <==> KnownRole(role) || role == "release-verify"
    {
      BuildsKnownRoles(role);
    }
    HashesInPlain(b.payload, digest);
    PlatformList();
  }

  lemma HashesInPlain(files: B.Files, digest: Bytes -> Sha)
    ensures B.Hashes(files, digest) == map name | name in files :: digest(files[name])
  {
  }

  lemma PlatformList()
    ensures B.BUILD_PLATFORMS == ["darwin-arm64", "linux-amd64", "linux-arm64"] && RELEASE == "v0.1.0-health.5"
  {
  }

  // Installing

  /** What a bundle must be for its installer: the pinned bootstrap, and every listed file under a plain name
      with its listed hash. */
  predicate WellSealed(bundle: B.Files, pin: string, codec: B.Codec, digest: Bytes -> Sha)
  {
    && "bootstrap.json" in bundle && digest(bundle["bootstrap.json"]) == pin
    && codec.readBootstrap(bundle["bootstrap.json"]).Some?
    && var boot := codec.readBootstrap(bundle["bootstrap.json"]).value;
    && boot.schema == 1
    && forall name | name in boot.files ::
         && name in bundle && digest(bundle[name]) == boot.files[name]
         && '/' !in name && forall i | 0 < i < |name| :: !(name[i - 1] == '.' && name[i] == '.')
  }

  /** What a host, an account and the bundle's files must be for an installation to complete. */
  ghost predicate Fit(env: Env, platforms: seq<string>, files: B.Files, owner: I.Owner, clocks: I.Clocks)
  {
    var p := env.platform;
    && p in platforms && KnownPlatform(p)
    && 1 <= owner.uid <= 2147483647 && 1 <= |owner.user| <= 32
    && owner.user[0] in LETTERS + "_" && Over(owner.user[1..], LETTERS + DECIMAL + "_-")
    && "manifest.json" in files && "release-manager.py" in files && B.Binary("release-verify", p) in files
    && B.Binary("keybroker", p) in files && B.Binary("keybroker-mcp", p) in files
    && var raw := files["manifest.json"];
    && |raw| <= 65536 && env.trust.parse(raw).Some?
    && var m := env.trust.parse(raw).value;
    && Acceptable(m, p) && clocks.start < m.expiresAt && m.issuedAt - 60 <= clocks.probe
    && (forall role | KnownRole(role) ::
          && role in m.artefacts[p] && B.Binary(role, p) in files
          && env.trust.digest(files[B.Binary(role, p)]) == m.artefacts[p][role].sha256
          && |files[B.Binary(role, p)]| == m.artefacts[p][role].size)
    && RightAnswers(env, files[B.Binary("keybroker", p)], m)
  }

  lemma InstallableIff(env: Env, boot: B.Bootstrap, files: B.Files, owner: I.Owner, clocks: I.Clocks)
    ensures I.Installable(env, boot, files, owner, clocks) <==> Fit(env, boot.platforms, files, owner, clocks)
  {
    hide PolicyOk, ValidPolicy, StateOk, Intact, Proves, RightAnswers, Acceptable, B.Binary, Over, IsUser,
         LETTERS, DECIMAL, Hexadecimal;
    IsUserIff(owner.user);
    if I.HasFiles(files, env.platform) && env.trust.parse(files["manifest.json"]).Some? {
      var raw := files["manifest.json"];
      var m, sha := env.trust.parse(raw).value, env.trust.digest(raw);
      FirstPolicyIff(owner, env.platform, sha, env.trust.digest(files[B.Binary("release-verify", env.platform)]));
      StagedIff(env, files, clocks.probe);
      ProvesIff(env, files[B.Binary("keybroker", env.platform)], m);
      if Acceptable(m, env.platform) {
        FirstStateIs(sha, m, env.platform);
      }
    }
  }

  lemma FirstPolicyIff(owner: I.Owner, platform: string, sha: Sha, verifier: Sha)
    ensures PolicyOk(I.FirstPolicy(owner, platform, sha, verifier)) <==>
      && KnownPlatform(platform) && 1 <= owner.uid <= 2147483647 && 1 <= |owner.user| <= 32
      && owner.user[0] in LETTERS + "_" && Over(owner.user[1..], LETTERS + DECIMAL + "_-")
  {
    hide Over, LETTERS, DECIMAL, HEXADECIMAL;
    PolicyOkIff(I.FirstPolicy(owner, platform, sha, verifier));
    IsHexIff(sha, 64);
    IsHexIff(verifier, 64);
  }

  lemma FirstStateIs(sha: Sha, m: Manifest, platform: string)
    requires Acceptable(m, platform)
    ensures StateOk(I.FirstState(sha, m, 1))
  {
  }

  /** The one staged release is intact exactly when its manifest is acceptable and issued and both
      executables are as described. */
  lemma StagedIff(env: Env, files: B.Files, clock: int)
    requires I.HasFiles(files, env.platform) && env.trust.parse(files["manifest.json"]).Some?
    ensures var raw, p := files["manifest.json"], env.platform;
      var sha, m := env.trust.digest(raw), env.trust.parse(raw).value;
      Intact(env, map[sha := I.Staged(files, p)], sha, clock) <==>
        && |raw| <= 65536 && Acceptable(m, p) && m.issuedAt - 60 <= clock
        && forall role | KnownRole(role) ::
             && role in m.artefacts[p] && B.Binary(role, p) in files
             && env.trust.digest(files[B.Binary(role, p)]) == m.artefacts[p][role].sha256
             && |files[B.Binary(role, p)]| == m.artefacts[p][role].size
  {
    hide Acceptable, Intact, B.Binary;
    var raw, p := files["manifest.json"], env.platform;
    var sha, m := env.trust.digest(raw), env.trust.parse(raw).value;
    var store := map[sha := I.Staged(files, p)];
    IntactIff(env, store, sha, clock);
    if Acceptable(m, p) {
      HasBothRoles(m, p);
    }
    assert I.Staged(files, p).files["keybroker"].data == files[B.Binary("keybroker", p)];
    assert I.Staged(files, p).files["keybroker-mcp"].data == files[B.Binary("keybroker-mcp", p)];
    assert Keeps(env, store, sha, raw, m) <==>
      |raw| <= 65536 && Acceptable(m, p) && Holds(env.trust, p, I.Staged(files, p), m);
  }

  /** One installation. It completes only from a sealed bundle that fits, and on a quiet host from every one;
      it leaves exactly the written-out files, policy and state, and a host to manage. */
  method InstallOnce(
    root: I.Root, env: Env, codec: B.Codec, bundle: B.Files, pin: string, texts: I.Texts, owner: I.Owner,
    clocks: I.Clocks)
    returns (r: Result<()>)
    requires root.Empty()
    modifies root
    ensures r.Returned? ==>
      && WellSealed(bundle, pin, codec, env.trust.digest)
      && var boot := codec.readBootstrap(bundle["bootstrap.json"]).value;
      && var files := map name | name in boot.files :: bundle[name];
      && I.Lays(root, env, files, texts) && I.Records(root, env, files, owner, clocks)
      && root.link == root.running == Some(env.trust.digest(bundle["manifest.json"]))
    ensures old(root.failures) == [] ==>
      (r.Returned? <==>
        && WellSealed(bundle, pin, codec, env.trust.digest)
        && var boot := codec.readBootstrap(bundle["bootstrap.json"]).value;
        && Fit(env, boot.platforms, map name | name in boot.files :: bundle[name], owner, clocks))
  {
    hide I.Installable, Fit, I.Lays, I.Records, B.SafeName;
    SealedIff(bundle, pin, codec, env.trust.digest);
    if WellSealed(bundle, pin, codec, env.trust.digest) {
      var boot := codec.readBootstrap(bundle["bootstrap.json"]).value;
      InstallableIff(env, boot, B.Contents(bundle, boot), owner, clocks);
    }
    r := I.InstallRelease(root, env, codec, bundle, pin, texts, owner, clocks);
  }

  lemma SealedIff(bundle: B.Files, pin: string, codec: B.Codec, digest: Bytes -> Sha)
    ensures B.Sealed(bundle, pin, codec, digest) <==> WellSealed(bundle, pin, codec, digest)
  {
    forall name: string
      ensures B.SafeName(name) <==>
        '/' !in name && forall i | 0 < i < |name| :: !(name[i - 1] == '.' && name[i] == '.')
    {
      SafeNameIff(name);
    }
  }

  lemma SafeNameIff(name: string)
    ensures B.SafeName(name) <==>
      '/' !in name && forall i | 0 < i < |name| :: !(name[i - 1] == '.' && name[i] == '.')
  {
    if B.SafeName(name) {
      forall i | 0 < i < |name| ensures !(name[i - 1] == '.' && name[i] == '.') {
        assert i - 1 < |name| - 1;
      }
    }
  }

  // Over whole histories

  /** This release verifies: some manifest and what it describes are kept under its name. */
  ghost predicate Kept(env: Env, store: map<string, Directory>, sha: string)
  {
    exists raw, m :: Keeps(env, store, sha, raw, m)
  }

  /** Wherever a history stops. */
  lemma ReachableInPlain(env: Env, start: Disk, es: seq<Event>, i: nat)
    requires Legal(env, start, es) && i <= |es| && Consistent(env, start)
    ensures var d := At(env, start, es, i);
      var s := d.installed;
      && s.previous != Some(s.current)
      && Kept(env, d.store, s.current) && (s.previous.Some? ==> Kept(env, d.store, s.previous.value))
      && match d.journal
         case None => d.link == Some(s.current) && (d.running == None || d.running == Some(s.current))
         case Some(j) =>
           && j.previous != j.candidate && Kept(env, d.store, j.previous) && Kept(env, d.store, j.candidate)
           && (s.current == j.previous || s.current == j.candidate)
           && (d.link == Some(j.previous) || d.link == Some(j.candidate))
           && (d.running == None || d.running == Some(j.previous) || d.running == Some(j.candidate))
  {
    hide Legal, Replay, At, Verified, Keeps;
    EveryReachableDiskIsConsistent(env, start, es, i);
    var d := At(env, start, es, i);
    forall sha ensures Verified(env, d.store, sha) <==> Kept(env, d.store, sha) {
      VerifiedIff(env, d.store, sha);
    }
    ConsistentInPlain(env, d);
  }

  lemma ConsistentInPlain(env: Env, d: Disk)
    requires Consistent(env, d)
    ensures var s := d.installed;
      && s.previous != Some(s.current)
      && Verified(env, d.store, s.current) && (s.previous.Some? ==> Verified(env, d.store, s.previous.value))
      && match d.journal
         case None => d.link == Some(s.current) && (d.running == None || d.running == Some(s.current))
         case Some(j) =>
           && j.previous != j.candidate
           && Verified(env, d.store, j.previous) && Verified(env, d.store, j.candidate)
           && (s.current == j.previous || s.current == j.candidate)
           && (d.link == Some(j.previous) || d.link == Some(j.candidate))
           && (d.running == None || d.running == Some(j.previous) || d.running == Some(j.candidate))
  {
    hide Verified;
  }

  /** What a later state keeps of an earlier one. */
  lemma LedgerInPlain(env: Env, start: Disk, es: seq<Event>, i: nat, j: nat)
    requires Legal(env, start, es) && i <= j <= |es|
    ensures var s, later := At(env, start, es, i).installed, At(env, start, es, j).installed;
      && s.sequence <= later.sequence
      && (s.sequence == later.sequence ==> s.metadata == later.metadata)
      && (forall x | x in s.revoked :: x in later.revoked) && forall x | x in s.failed :: x in later.failed
  {
    hide Legal, Replay, At, Guard, Apply;
    LedgerOnlyAdvances(env, start, es, i, j);
  }

  /** Where the link stands when a transaction ends. */
  lemma CommitPointInPlain(env: Env, start: Disk, es: seq<Event>, i: nat, k: nat)
    requires Legal(env, start, es) && Consistent(env, start)
    requires i < k < |es| && es[i].Began? && es[k].Ended?
    requires forall x | i < x < k :: !es[x].Ended?
    ensures var d, t := At(env, start, es, k + 1), es[i].journal;
      && d.journal == None && d.link == Some(d.installed.current) && (d.running == None || d.running == d.link)
      && (d.link == Some(t.candidate) <==> exists x :: i < x < k && (es[x].Upgraded? || es[x].RolledBack?))
      && (d.link == Some(t.previous) || d.link == Some(t.candidate))
      && (d.link == Some(t.previous) ==>
            d.installed == At(env, start, es, i).installed.(failed := d.installed.failed))
  {
    hide Legal, Replay, At, Guard, Apply, Consistent;
    CommitPoint(env, start, es, i, k);
    JournalEndsDiffer(env, start, es, i);
  }

  lemma JournalEndsDiffer(env: Env, start: Disk, es: seq<Event>, i: nat)
    requires Legal(env, start, es) && Consistent(env, start) && i < |es| && es[i].Began?
    ensures es[i].journal.previous != es[i].journal.candidate
  {
    hide Legal, Replay, At, Verified;
    EveryReachableDiskIsConsistent(env, start, es, i);
    Step(env, start, es, i);
  }

  /** With a revoked release installed, only a committed rollback lets anything go on. */
  lemma RevokedInPlain(env: Env, start: Disk, es: seq<Event>, i: nat, j: nat)
    requires Legal(env, start, es) && i <= j < |es|
    requires At(env, start, es, i).installed.current in At(env, start, es, i).installed.revoked
    requires es[j].Accepted? || es[j].UsedOffline? || es[j].Upgraded? || (es[j].Began? && !es[j].operator)
    ensures exists x :: i <= x < j && es[x].RolledBack?
  {
    hide Legal, Replay, At, Guard, Apply;
    RevokedCurrentBlocks(env, start, es, i, j);
  }

  /** Two rollbacks with no other write of the installed state between them. */
  lemma RollbacksInPlain(env: Env, start: Disk, es: seq<Event>, i: nat, j: nat)
    requires Legal(env, start, es) && i < j < |es| && es[i].RolledBack? && es[j].RolledBack?
    requires forall x | i < x < j ::
      !es[x].Accepted? && !es[x].Upgraded? && !es[x].RolledBack? && !es[x].Quarantined?
    ensures At(env, start, es, j + 1).installed == At(env, start, es, i).installed
  {
    hide Legal, Replay, At, Guard, Apply;
    TwoRollbacksRestore(env, start, es, i, j);
  }
}
