/**
 When a document's requests succeed and what they leave behind, with statuses spelled out (documents-mutability.ts,
 documents.service.ts, signing.service.ts): what is waiting for a signature, submitted, accepted or cancelled is locked.
 */
module DocumentLocks {
  import opened Wrappers
  import opened Json
  import opened CanonicalServer
  import opened InvoiceLines
  import opened DocumentTotals
  import opened Recalculation
  import opened EtaPayload
  import opened Documents
  import opened DocumentRuns

  // Neither imported nor waiting for a signature, submitted, accepted or cancelled.
  predicate MayChange(d: Doc) {
    && d.origin == Local
    && (d.status == Draft || d.status == Ready || d.status == Signed || d.status == Rejected || d.status == Invalid)
  }

  // Every line can be computed.
  predicate Computable(lines: seq<LineInput>) {
    forall i :: 0 <= i < |lines| ==> Calculated(lines[i]).Ok?
  }

  lemma BuildsExactly(dto: Dto, settings: Option<seq<Field>>, layout: Layout)
    ensures Build(dto, settings, layout).Some? <==> settings.Some? && Computable(dto.lines)
  {
    hide Calculated, CalculateAll, StoreAll, TotalsOf, Payload;
    CalculatesEach(dto.lines);
  }

  // Fresh content on a row: a draft of the next version, without a signature, with its open jobs cancelled.
  predicate Replaces(s: State, t: State, dto: Dto) {
    && t.doc.status == Draft && t.doc.version == s.doc.version + 1 && t.doc.signature == None
    && t.doc.origin == s.doc.origin && t.doc.header == dto.header && t.doc.extraDiscount == dto.extraDiscount
    && t.doc.canonical == Canon(t.doc.payload) && |t.doc.lines| == |dto.lines|
    && t.handed == s.handed && |t.jobs| == |s.jobs|
    && forall j :: 0 <= j < |s.jobs| ==>
         t.jobs[j] == if s.jobs[j].status == Pending || s.jobs[j].status == Claimed then Job(JobCancelled, s.jobs[j].version)
                      else s.jobs[j]
  }

  /** An edit succeeds exactly on a row that may change, at its version, with lines that can all be computed. */
  lemma EditsExactly(s: State, dto: Dto, version: nat, settings: Option<seq<Field>>, layout: Layout)
    ensures var r := Update(s, dto, version, settings, layout);
            && (r.Ok? <==> dto.lines != [] && MayChange(s.doc) && s.doc.version == version
                           && settings.Some? && Computable(dto.lines))
            && (r.Ok? ==> Replaces(s, r.value, dto))
  {
    hide Build, Canon;
    BuildsExactly(dto, settings, layout);
    if Build(dto, settings, layout).Some? { BuiltLines(dto, settings, layout); }
  }

  lemma BuiltLines(dto: Dto, settings: Option<seq<Field>>, layout: Layout)
    requires Build(dto, settings, layout).Some?
    ensures |Build(dto, settings, layout).value.lines| == |dto.lines|
  {
    hide Calculated, TotalsOf, Payload;
  }

  /** A recalculation succeeds exactly on a row that may change, when the lines it reads can be computed. */
  lemma RecalculatesExactly(s: State, read: seq<StoredLine>, settings: Option<seq<Field>>, layout: Layout)
    ensures var r, dto := Recalculate(s, read, settings, layout), Dto(s.doc.header, LoadAll(read), s.doc.extraDiscount);
            && (r.Ok? <==> MayChange(s.doc) && settings.Some? && Computable(LoadAll(read)))
            && (r.Ok? ==> Replaces(s, r.value, dto))
  {
    hide Build, Canon, LoadAll;
    var dto := FromStored(s.doc, read);
    BuildsExactly(dto, settings, layout);
    if Build(dto, settings, layout).Some? { BuiltLines(dto, settings, layout); }
  }

  /** Marking ready succeeds exactly on a valid document that may change, and changes nothing but the status. */
  lemma MarksReadyExactly(s: State, valid: bool)
    ensures var r := MarkReady(s, valid);
            && (r.Ok? <==> MayChange(s.doc) && valid)
            && (r.Ok? ==> r.value == State(s.doc.(status := Ready), s.jobs, s.handed))
  {
  }

  /** On imported and on locked rows no request of a user changes anything. */
  lemma LockedRowsStay(s: State, layout: Layout, e: Event)
    requires s.doc.origin == EtaSync || s.doc.status == PendingSignature || s.doc.status == Submitted
             || s.doc.status == Valid || s.doc.status == Cancelled
    requires e.Edit? || e.Recompute? || e.MakeReady? || e.SendForSignature?
    ensures Step(s, e, layout) == s
  {
    hide Build, LoadAll, ReadsAs;
  }

  // Which error a refused edit gets: no lines, imported, locked, stale, and then content that cannot be built.
  lemma RefusalsInOrder(s: State, dto: Dto, version: nat, settings: Option<seq<Field>>, layout: Layout)
    ensures var r := Update(s, dto, version, settings, layout);
            r.Err? ==> r.error == if dto.lines == [] then NoLines
                                  else if s.doc.origin == EtaSync then ReadOnly
                                  else if !MayChange(s.doc) then NotEditable
                                  else if s.doc.version != version then StaleVersion
                                  else CannotBuild
  {
    hide Build;
  }

  /** A created document is a local draft of version 1, unsigned and without jobs. */
  lemma CreatesExactly(dto: Dto, settings: Option<seq<Field>>, layout: Layout)
    ensures var r := Create(dto, settings, layout);
            && (r.Ok? <==> dto.lines != [] && settings.Some? && Computable(dto.lines))
            && (r.Ok? ==> && r.value.doc.origin == Local && r.value.doc.status == Draft && r.value.doc.version == 1
                          && r.value.doc.header == dto.header && r.value.doc.extraDiscount == dto.extraDiscount
                          && r.value.doc.canonical == Canon(r.value.doc.payload)
                          && r.value.doc.signature == None && r.value.jobs == [] && r.value.handed == [])
  {
    hide Build, Canon;
    BuildsExactly(dto, settings, layout);
  }

  /** A job is made exactly for a ready local document without an open job, for its version. */
  lemma SendsExactly(s: State)
    ensures var t := Enqueue(s);
            if s.doc.origin == Local && s.doc.status == Ready
               && (forall j :: 0 <= j < |s.jobs| ==> s.jobs[j].status != Pending && s.jobs[j].status != Claimed)
            then t == State(s.doc, s.jobs + [Job(Pending, s.doc.version)], s.handed)
            else t == s
  {
  }

  /**
   A signature is stored exactly for a claimed job whose version, the document's and the handed text's are one; then the
   document is signed and the job completed, and nothing else changes.
   */
  lemma SignsExactly(s: State, j: nat, h: nat)
    requires j < |s.jobs| && h < |s.handed|
    ensures var t := Complete(s, j, h);
            if s.jobs[j].status == Claimed && s.jobs[j].version == s.doc.version == s.handed[h].version
            then t == State(s.doc.(status := Signed, signature := Some(Signature(s.handed[h].text))),
                            s.jobs[j := Job(Completed, s.doc.version)], s.handed)
            else t == s
  {
  }

  // Other moves are of open jobs, anywhere but to completion.
  lemma MovesExactly(s: State, j: nat, status: JobStatus)
    requires j < |s.jobs|
    ensures MoveJob(s, j, status)
         == if (s.jobs[j].status == Pending || s.jobs[j].status == Claimed) && status != Completed
            then State(s.doc, s.jobs[j := Job(status, s.jobs[j].version)], s.handed) else s
  {
  }

  /** Only an agent's signature completes a job. */
  lemma OnlySigningCompletes(s: State, layout: Layout, e: Event, j: nat)
    requires j < |s.jobs| && s.jobs[j].status != Completed
    requires j < |Step(s, e, layout).jobs| && Step(s, e, layout).jobs[j].status == Completed
    ensures e.Sign? && e.job == j && Step(s, e, layout).doc.signature.Some?
  {
    hide Build, LoadAll, ReadsAs, Canon, FromStored;
  }
}
