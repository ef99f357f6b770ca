/**
 One stored document and its signature jobs (documents.service.ts, documents-mutability.ts, signing.service.ts).
 A transaction is one step, and one that throws changes nothing; claiming a job and reading its text are two. The
 payload's amounts are those of the stored lines and totals, which the tax engine computed; the rest of its layout is a
 parameter. A line's tax rows are read back in any order.
 */
module Documents {
  import opened Wrappers
  import opened Json
  import opened CanonicalServer
  import opened InvoiceLines
  import opened DocumentTotals
  import opened Recalculation
  import opened EtaPayload

  datatype Status = Draft | Ready | PendingSignature | Signed | Submitted | Valid | Invalid | Cancelled | Rejected

  datatype Origin = Local | EtaSync

  // What a user saves: everything that is not a number of a line is in the header.
  datatype Dto = Dto(header: seq<Field>, lines: seq<LineInput>, extraDiscount: int)

  datatype Built = Built(lines: seq<StoredLine>, totals: Totals, payload: seq<Field>)

  // What was signed.
  datatype Signature = Signature(over: string)

  datatype Doc = Doc(
    origin: Origin,
    status: Status,
    version: nat,
    header: seq<Field>,
    extraDiscount: int,
    lines: seq<StoredLine>,
    totals: Totals,
    payload: seq<Field>,
    canonical: string,
    signature: Option<Signature>
  )

  datatype JobStatus = Pending | Claimed | Completed | Failed | JobCancelled

  datatype Job = Job(status: JobStatus, version: nat)

  // A version and its text, as given to an agent.
  datatype Handed = Handed(version: nat, text: string)

  datatype State = State(doc: Doc, jobs: seq<Job>, handed: seq<Handed>)

  datatype Error = NoLines | ReadOnly | NotEditable | StaleVersion | CannotBuild | InvalidDocument

  // ----- building -----

  function CalculateAll(lines: seq<LineInput>): (r: Option<seq<LineComputed>>)
    ensures r.Some? ==> |r.value| == |lines|
  {
    if lines == [] then Some([])
    else
      var n := |lines| - 1;
      var before, last := CalculateAll(lines[..n]), Calculated(lines[n]);
      if before.Some? && last.Ok? then Some(before.value + [last.value]) else None
  }

  // The computed lines, one for each, when no line is refused.
  lemma {:induction false} CalculatesEach(lines: seq<LineInput>)
    ensures var r := CalculateAll(lines);
            && (r.Some? <==> forall i :: 0 <= i < |lines| ==> Calculated(lines[i]).Ok?)
            && (r.Some? ==> forall i :: 0 <= i < |lines| ==> Calculated(lines[i]) == Ok(r.value[i]))
    decreases |lines|
  {
    hide Calculated;
    if lines != [] {
      var n := |lines| - 1;
      CalculatesEach(lines[..n]);
      assert forall i :: 0 <= i < n ==> lines[..n][i] == lines[i];
    }
  }

  function StoreAll(lines: seq<LineInput>, computed: seq<LineComputed>): (r: seq<StoredLine>)
    requires |lines| == |computed|
    ensures |r| == |lines| && forall i :: 0 <= i < |r| ==> r[i] == Store(lines[i], computed[i])
  {
    seq(|lines|, i requires 0 <= i < |lines| => Store(lines[i], computed[i]))
  }

  function LoadAll(lines: seq<StoredLine>): (r: seq<LineInput>)
    ensures |r| == |lines| && forall i :: 0 <= i < |r| ==> r[i] == Load(lines[i])
  {
    seq(|lines|, i requires 0 <= i < |lines| => Load(lines[i]))
  }

  // Nothing is built when the settings cannot be resolved or a line is refused.
  function Build(dto: Dto, settings: Option<seq<Field>>, layout: Layout): Option<Built> {
    var computed := CalculateAll(dto.lines);
    if settings.None? || computed.None? then None
    else
      var lines, totals := StoreAll(dto.lines, computed.value), TotalsOf(computed.value, dto.extraDiscount);
      Some(Built(lines, totals, Payload(layout, dto.header, settings.value, lines, totals)))
  }

  // The row of freshly saved content: a draft without a signature.
  function Saved(origin: Origin, version: nat, dto: Dto, b: Built): Doc {
    Doc(origin, Draft, version, dto.header, dto.extraDiscount, b.lines, b.totals, b.payload, Canon(b.payload), None)
  }

  // What a query returns for stored lines: the lines in order, each with its tax rows in any order.
  predicate ReadsAs(stored: seq<StoredLine>, read: seq<StoredLine>) {
    |read| == |stored| && forall i :: 0 <= i < |stored| ==> ReadBack(stored[i], read[i])
  }

  function FromStored(d: Doc, read: seq<StoredLine>): Dto {
    Dto(d.header, LoadAll(read), d.extraDiscount)
  }

  // ----- requests -----

  predicate Editable(s: Status) {
    s in {Draft, Ready, Signed, Rejected, Invalid}
  }

  function MutationError(d: Doc): Option<Error> {
    if d.origin == EtaSync then Some(ReadOnly) else if !Editable(d.status) then Some(NotEditable) else None
  }

  predicate Open(j: Job) { j.status == Pending || j.status == Claimed }

  function CancelOpen(jobs: seq<Job>): (r: seq<Job>)
    ensures |r| == |jobs|
    ensures forall i :: 0 <= i < |jobs| ==> r[i] == if Open(jobs[i]) then jobs[i].(status := JobCancelled) else jobs[i]
  {
    seq(|jobs|, i requires 0 <= i < |jobs| => if Open(jobs[i]) then jobs[i].(status := JobCancelled) else jobs[i])
  }

  function Create(dto: Dto, settings: Option<seq<Field>>, layout: Layout): Result<State, Error> {
    if dto.lines == [] then Err(NoLines)
    else
      var b := Build(dto, settings, layout);
      if b.None? then Err(CannotBuild) else Ok(State(Saved(Local, 1, dto, b.value), [], []))
  }

  function Update(s: State, dto: Dto, version: nat, settings: Option<seq<Field>>, layout: Layout): Result<State, Error> {
    if dto.lines == [] then Err(NoLines)
    else if MutationError(s.doc).Some? then Err(MutationError(s.doc).value)
    else if s.doc.version != version then Err(StaleVersion)
    else
      var b := Build(dto, settings, layout);
      if b.None? then Err(CannotBuild)
      else Ok(s.(doc := Saved(s.doc.origin, s.doc.version + 1, dto, b.value), jobs := CancelOpen(s.jobs)))
  }

  // `read` is what the query for the lines returned.
  function Recalculate(s: State, read: seq<StoredLine>, settings: Option<seq<Field>>, layout: Layout): Result<State, Error> {
    if MutationError(s.doc).Some? then Err(MutationError(s.doc).value)
    else
      var dto := FromStored(s.doc, read);
      var b := Build(dto, settings, layout);
      if b.None? then Err(CannotBuild)
      else Ok(s.(doc := Saved(s.doc.origin, s.doc.version + 1, dto, b.value), jobs := CancelOpen(s.jobs)))
  }

  function MarkReady(s: State, valid: bool): Result<State, Error> {
    if MutationError(s.doc).Some? then Err(MutationError(s.doc).value)
    else if !valid then Err(InvalidDocument)
    else Ok(s.(doc := s.doc.(status := Ready)))
  }

  // A job is made for the version it is asked to sign, when none is open.
  function Enqueue(s: State): State {
    if MutationError(s.doc).Some? || s.doc.status != Ready || (exists i :: 0 <= i < |s.jobs| && Open(s.jobs[i])) then s
    else s.(jobs := s.jobs + [Job(Pending, s.doc.version)])
  }

  // Claiming, releasing, failing and cancelling a job.
  function MoveJob(s: State, j: nat, status: JobStatus): State {
    if j < |s.jobs| && Open(s.jobs[j]) && status != Completed then s.(jobs := s.jobs[j := s.jobs[j].(status := status)])
    else s
  }

  // What an agent gets for a job it claimed: the job's version, with the text as it is when read, some time later.
  function HandOut(s: State, j: nat): State {
    if j < |s.jobs| then s.(handed := s.handed + [Handed(s.jobs[j].version, s.doc.canonical)]) else s
  }

  // An agent returns the signature of something it was handed; job and document must both be at that version.
  function Complete(s: State, j: nat, h: nat): State {
    if j < |s.jobs| && h < |s.handed| && s.jobs[j].status == Claimed
       && s.jobs[j].version == s.handed[h].version && s.doc.version == s.handed[h].version
    then
      s.(
        doc := s.doc.(status := Signed, signature := Some(Signature(s.handed[h].text))),
        jobs := s.jobs[j := s.jobs[j].(status := Completed)]
      )
    else s
  }

  // ----- the service, updating its rows in place -----

  class DocumentsService {
    var doc: Doc
    var jobs: seq<Job>
    var handed: seq<Handed>
    const layout: Layout

    function Rows(): State
      reads this
    {
      State(doc, jobs, handed)
    }

    // Cancels the open jobs of the document.
    method CancelOpenJobs()
      modifies this`jobs
      ensures jobs == CancelOpen(old(jobs))
    {
      var before := jobs;
      var after: seq<Job> := [];
      for i := 0 to |before|
        invariant |after| == i && jobs == before
        invariant forall k :: 0 <= k < i ==>
                    after[k] == if Open(before[k]) then before[k].(status := JobCancelled) else before[k]
      {
        after := after + [if Open(before[i]) then before[i].(status := JobCancelled) else before[i]];
      }
      jobs := after;
    }

    // Deletes the old lines and writes content, totals, payload and canonical text; drops the signature.
    method Save(dto: Dto, b: Built)
      modifies this`doc, this`jobs
      ensures doc == Saved(old(doc).origin, old(doc).version + 1, dto, b) && jobs == CancelOpen(old(jobs))
    {
      doc := doc.(lines := []);
      CancelOpenJobs();
      doc := doc.(status := Draft, header := dto.header, extraDiscount := dto.extraDiscount);
      doc := doc.(totals := b.totals, payload := b.payload, canonical := Canon(b.payload));
      doc := doc.(signature := None, version := doc.version + 1, lines := b.lines);
    }

    method UpdateDocument(dto: Dto, version: nat, settings: Option<seq<Field>>) returns (r: Result<(), Error>)
      modifies this`doc, this`jobs
      ensures match Update(old(Rows()), dto, version, settings, layout)
              case Ok(s) => r == Ok(()) && Rows() == s
              case Err(e) => r == Err(e) && Rows() == old(Rows())
    {
      hide Build, Saved, CancelOpen;
      if dto.lines == [] { return Err(NoLines); }
      if doc.origin == EtaSync { return Err(ReadOnly); }
      if !Editable(doc.status) { return Err(NotEditable); }
      if doc.version != version { return Err(StaleVersion); }
      var b := Build(dto, settings, layout);
      if b.None? { return Err(CannotBuild); }
      Save(dto, b.value);
      return Ok(());
    }

    method RecalculateTotals(read: seq<StoredLine>, settings: Option<seq<Field>>) returns (r: Result<(), Error>)
      requires ReadsAs(doc.lines, read)
      modifies this`doc, this`jobs
      ensures match Recalculate(old(Rows()), read, settings, layout)
              case Ok(s) => r == Ok(()) && Rows() == s
              case Err(e) => r == Err(e) && Rows() == old(Rows())
    {
      hide Build, Saved, CancelOpen, FromStored;
      if doc.origin == EtaSync { return Err(ReadOnly); }
      if !Editable(doc.status) { return Err(NotEditable); }
      var dto := FromStored(doc, read);
      var b := Build(dto, settings, layout);
      if b.None? { return Err(CannotBuild); }
      Save(dto, b.value);
      return Ok(());
    }

    method MarkDocumentReady(valid: bool) returns (r: Result<(), Error>)
      modifies this`doc
      ensures match MarkReady(old(Rows()), valid)
              case Ok(s) => r == Ok(()) && Rows() == s
              case Err(e) => r == Err(e) && Rows() == old(Rows())
    {
      if doc.origin == EtaSync { return Err(ReadOnly); }
      if !Editable(doc.status) { return Err(NotEditable); }
      if !valid { return Err(InvalidDocument); }
      doc := doc.(status := Ready);
      return Ok(());
    }
  }
}
