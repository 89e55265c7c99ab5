/** The append-only audit file of the broker. */
module Audit {
  import opened Basics
  import opened Redaction

  datatype AuditEvent = AuditEvent(
    time: int, caller: string, capability: string, allowed: bool, reason: string, input: Option<Fields>)

  /** What the system does to one write. */
  datatype WriteFault =
    | Healthy
    | CannotEncode
    | CannotOpen
    | Cut(written: nat)      // an error or a short write after this many characters
    | SyncFails

  /** One write's trace in the file: a whole record with its newline, or the start of one. */
  datatype Chunk = Whole(event: AuditEvent) | Torn(text: string)

  function Scrubbed(e: AuditEvent): AuditEvent { e.(input := RedactedInput(e.input)) }

  /** The chunk that a write leaves, if any, and whether the caller hears of success. */
  function Trace(e: AuditEvent, line: string, fault: WriteFault): (Option<Chunk>, bool)
  {
    match fault
    case Healthy => (Some(Whole(Scrubbed(e))), true)
    case CannotEncode => (None, false)
    case CannotOpen => (None, false)
    case Cut(written) => (if written < |line| then Some(Torn(line[..written])) else Some(Whole(Scrubbed(e))), false)
    case SyncFails => (Some(Whole(Scrubbed(e))), false)
  }

  function Text(chunks: seq<Chunk>, encode: AuditEvent -> string): string
  {
    if chunks == [] then ""
    else Text(chunks[..|chunks| - 1], encode) + ChunkText(chunks[|chunks| - 1], encode)
  }

  function ChunkText(c: Chunk, encode: AuditEvent -> string): string
  {
    match c
    case Whole(e) => encode(e) + "\n"
    case Torn(text) => text
  }

  function Appended(chunks: seq<Chunk>, c: Option<Chunk>): seq<Chunk>
  {
    if c.Some? then chunks + [c.value] else chunks
  }

  class JSONLAudit {
    const encode: AuditEvent -> string
    var file: string
    var faults: seq<WriteFault>
    ghost var chunks: seq<Chunk>

    constructor (encode: AuditEvent -> string, faults: seq<WriteFault>)
      ensures Valid() && this.encode == encode && this.faults == faults && chunks == [] && file == ""
    {
      this.encode, this.faults, this.file, this.chunks := encode, faults, "", [];
    }

    ghost predicate Valid()
      reads this
    {
      file == Text(chunks, encode)
    }

    ghost function Fault(): WriteFault
      reads this
    {
      if faults == [] then Healthy else faults[0]
    }

    /** Redacts again, appends one line and syncs it. Success means the whole record is in the file; a
        failure may leave nothing, a torn start or even the whole record. */
    method Write(event: AuditEvent) returns (ok: bool)
      requires Valid()
      modifies this
      ensures Valid() && old(file) <= file
      ensures var (chunk, told) := Trace(event, encode(Scrubbed(event)) + "\n", old(Fault()));
        ok == told && chunks == Appended(old(chunks), chunk)
      ensures ok ==> file == old(file) + encode(Scrubbed(event)) + "\n"
      // fault by fault, in plain terms
      ensures var input := if event.input.None? then None else Some(Redacted(event.input.value));
        var line := encode(AuditEvent(event.time, event.caller, event.capability, event.allowed, event.reason, input))
          + "\n";
        match old(Fault())
        case Healthy => ok && file == old(file) + line
        case CannotEncode => !ok && file == old(file)
        case CannotOpen => !ok && file == old(file)
        case Cut(written) => !ok && file == old(file) + (if written < |line| then line[..written] else line)
        case SyncFails => !ok && file == old(file) + line
      ensures faults == if old(faults) == [] then [] else old(faults)[1..]
    {
      var fault := Healthy;
      if faults != [] {
        fault, faults := faults[0], faults[1..];
      }
      var input := event.input;
      if input.Some? {
        var redacted := RedactMap(input.value);
        input := Some(redacted);
      }
      var scrubbed := event.(input := input);
      if fault == CannotEncode || fault == CannotOpen {
        return false;
      }
      var line := encode(scrubbed) + "\n";
      var written := if fault.Cut? && fault.written < |line| then fault.written else |line|;
      file := file + line[..written];
      ghost var chunk := if written < |line| then Torn(line[..written]) else Whole(scrubbed);
      assert (chunks + [chunk])[..|chunks|] == chunks;
      assert written == |line| ==> line[..written] == line;
      chunks := chunks + [chunk];
      assert old(file) + encode(scrubbed) + "\n" == old(file) + line;
      return fault.Healthy?;
    }
  }

  // One record, one line?

  /** The lines of a text that end in a newline. */
  function Lines(s: string): seq<string>
    decreases |s|
  {
    if s == "" then []
    else if s[|s| - 1] == '\n' then Lines(s[..|s| - 1]) + [Rest(s[..|s| - 1])]
    else Lines(s[..|s| - 1])
  }

  /** What follows the last newline. */
  function Rest(s: string): string
    decreases |s|
  {
    if s == "" || s[|s| - 1] == '\n' then "" else Rest(s[..|s| - 1]) + [s[|s| - 1]]
  }

  lemma {:induction false} AppendWithoutNewline(s: string, t: string)
    requires '\n' !in t
    ensures Lines(s + t) == Lines(s) && Rest(s + t) == Rest(s) + t
  {
    if t == "" {
      assert s + t == s;
    } else {
      var shorter := t[..|t| - 1];
      AppendWithoutNewline(s, shorter);
      assert (s + t)[..|s + t| - 1] == s + shorter;
      assert t[|t| - 1] in t;
      assert Rest(s) + t == Rest(s) + shorter + [t[|t| - 1]];
    }
  }

  /** A successful write adds exactly one line, and that line is the record exactly when the file was
      empty or ended in a newline: after a torn write the next record shares its line. */
  lemma RecordIsItsOwnLineIff(file: string, record: string)
    requires '\n' !in record
    ensures Lines(file + record + "\n") == Lines(file) + [Rest(file) + record]
    ensures Lines(file + record + "\n") == Lines(file) + [record] <==>
      file == "" || file[|file| - 1] == '\n'
  {
    AppendWithoutNewline(file, record);
    var whole := file + record + "\n";
    assert whole[..|whole| - 1] == file + record;
    assert |Rest(file) + record| == |record| <==> Rest(file) == "";
    assert Lines(whole) == Lines(file) + [record] <==> Lines(whole)[|Lines(file)|] == record;
    assert Rest(file) == "" ==> Rest(file) + record == record;
  }

  /** What each whole record's line should be. */
  function Records(chunks: seq<Chunk>, encode: AuditEvent -> string): seq<string>
  {
    if chunks == [] then []
    else
      Records(chunks[..|chunks| - 1], encode)
      + match chunks[|chunks| - 1] case Whole(e) => [encode(e)] case Torn(_) => []
  }

  /** Encoded records hold no newline, and so neither does the start of one. */
  ghost predicate OneLiners(chunks: seq<Chunk>, encode: AuditEvent -> string)
  {
    (forall e :: '\n' !in encode(e)) && forall c | c in chunks && c.Torn? :: '\n' !in c.text
  }

  /** Nothing was torn before a later whole record. */
  predicate TornOnlyAtEnd(chunks: seq<Chunk>)
  {
    forall i, j | 0 <= i < j < |chunks| && chunks[j].Whole? :: chunks[i].Torn? ==> chunks[i].text == ""
  }

  predicate NothingTorn(chunks: seq<Chunk>)
  {
    forall i | 0 <= i < |chunks| && chunks[i].Torn? :: chunks[i].text == ""
  }

  lemma OneMoreChunk(chunks: seq<Chunk>)
    requires chunks != []
    ensures var n := |chunks| - 1;
      && (TornOnlyAtEnd(chunks) <==>
            TornOnlyAtEnd(chunks[..n]) && (chunks[n].Whole? ==> NothingTorn(chunks[..n])))
      && (NothingTorn(chunks) <==> NothingTorn(chunks[..n]) && (chunks[n].Torn? ==> chunks[n].text == ""))
  {
    var n := |chunks| - 1;
    assert forall i | 0 <= i < n :: chunks[..n][i] == chunks[i];
  }

  lemma {:induction false} NothingHangsIff(chunks: seq<Chunk>, encode: AuditEvent -> string)
    requires OneLiners(chunks, encode) && TornOnlyAtEnd(chunks)
    ensures Rest(Text(chunks, encode)) == "" <==> NothingTorn(chunks)
  {
    hide TornOnlyAtEnd;
    if chunks != [] {
      hide NothingTorn;
      var n := |chunks| - 1;
      OneMoreChunk(chunks);
      NothingHangsIff(chunks[..n], encode);
      match chunks[n] {
        case Torn(text) =>
          AppendWithoutNewline(Text(chunks[..n], encode), text);
        case Whole(e) =>
          var whole := Text(chunks, encode);
          assert whole[|whole| - 1] == '\n';
      }
    }
  }

  /** Over any sequence of writes and faults, the complete lines of the file are exactly the records, one
      each, if and only if no torn start comes before a later record. */
  lemma {:induction false} EveryRecordHasItsLineIff(chunks: seq<Chunk>, encode: AuditEvent -> string)
    requires OneLiners(chunks, encode)
    ensures |Lines(Text(chunks, encode))| == |Records(chunks, encode)|
    ensures Lines(Text(chunks, encode)) == Records(chunks, encode) <==> TornOnlyAtEnd(chunks)
  {
    if chunks != [] {
      hide TornOnlyAtEnd, NothingTorn, Lines, Rest;
      var n := |chunks| - 1;
      var before := Text(chunks[..n], encode);
      OneMoreChunk(chunks);
      EveryRecordHasItsLineIff(chunks[..n], encode);
      match chunks[n] {
        case Torn(text) =>
          AppendWithoutNewline(before, text);
        case Whole(e) =>
          var record := encode(e);
          RecordIsItsOwnLineIff(before, record);
          assert Text(chunks, encode) == before + record + "\n";
          SameEnds(Lines(before), Records(chunks[..n], encode), Rest(before) + record, record);
          assert |Rest(before) + record| == |record| <==> Rest(before) == "";
          assert Rest(before) == "" ==> Rest(before) + record == record;
          if TornOnlyAtEnd(chunks[..n]) {
            NothingHangsIff(chunks[..n], encode);
          }
      }
    }
  }

  lemma SameEnds(xs: seq<string>, ys: seq<string>, x: string, y: string)
    requires |xs| == |ys|
    ensures xs + [x] == ys + [y] <==> xs == ys && x == y
  {
    assert (xs + [x])[..|xs|] == xs && (ys + [y])[..|ys|] == ys;
    assert (xs + [x])[|xs|] == x && (ys + [y])[|ys|] == y;
  }

  lemma SharedLine(start: string, record: string)
    requires start != "" && '\n' !in start && '\n' !in record
    ensures Lines(start + record + "\n") == [start + record]
    ensures record !in Lines(start + record + "\n")
  {
    AppendWithoutNewline("", start);
    assert "" + start == start;
    RecordIsItsOwnLineIff(start, record);
    assert |start + record| != |record|;
  }

  /** A short write and then a good one: the second record is no line of the file. */
  method TornWriteHidesNextRecord(encode: AuditEvent -> string, first: AuditEvent, second: AuditEvent, cut: nat)
    returns (audit: JSONLAudit, told: (bool, bool))
    requires '\n' !in encode(Scrubbed(first)) && '\n' !in encode(Scrubbed(second))
    requires 0 < cut <= |encode(Scrubbed(first))|
    ensures told == (false, true)
    ensures Lines(audit.file) == [encode(Scrubbed(first))[..cut] + encode(Scrubbed(second))]
    ensures encode(Scrubbed(second)) !in Lines(audit.file)
  {
    hide Scrubbed, Lines;
    audit := new JSONLAudit(encode, [Cut(cut), Healthy]);
    ghost var torn := encode(Scrubbed(first))[..cut];
    assert (encode(Scrubbed(first)) + "\n")[..cut] == torn;
    var one := audit.Write(first);
    OneTorn(torn, encode);
    assert audit.file == torn;
    var two := audit.Write(second);
    told := (one, two);
    SharedLine(torn, encode(Scrubbed(second)));
  }

  lemma OneTorn(text: string, encode: AuditEvent -> string)
    ensures Text([Torn(text)], encode) == text
  {
    assert [Torn(text)][..0] == [];
  }
}
