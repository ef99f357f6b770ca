/**
 What holds of a local document in every run of edits, recalculations, signing steps and status changes: the stored
 texts and totals agree with the content, versions count the content changes, and a signature never outlives the
 content it covers.
 */
module DocumentRuns {
  import opened Wrappers
  import opened Json
  import opened CanonicalServer
  import opened Sums
  import opened InvoiceLines
  import opened DocumentTotals
  import opened Recalculation
  import opened Validator
  import opened EtaPayload
  import opened Documents

  datatype Event =
    | Edit(dto: Dto, version: nat, settings: Option<seq<Field>>)
    | Recompute(read: seq<StoredLine>, settings: Option<seq<Field>>)
    | MakeReady(valid: bool)
    | SendForSignature
    | Move(job: nat, jobStatus: JobStatus)
    | Hand(job: nat)
    | Sign(job: nat, handed: nat)
    | SetStatus(status: Status)   // submission and ETA's answers

  function OrSame(s: State, r: Result<State, Error>): State {
    if r.Ok? then r.value else s
  }

  function Step(s: State, e: Event, layout: Layout): State {
    match e
    case Edit(dto, version, settings) => OrSame(s, Update(s, dto, version, settings, layout))
    case Recompute(read, settings) => if ReadsAs(s.doc.lines, read) then OrSame(s, Recalculate(s, read, settings, layout)) else s
    case MakeReady(valid) => OrSame(s, MarkReady(s, valid))
    case SendForSignature => Enqueue(s)
    case Move(j, status) => MoveJob(s, j, status)
    case Hand(j) => HandOut(s, j)
    case Sign(j, h) => Complete(s, j, h)
    case SetStatus(status) => s.(doc := s.doc.(status := status))
  }

  function Run(s: State, es: seq<Event>, layout: Layout): State {
    if es == [] then s else Step(Run(s, es[..|es| - 1], layout), es[|es| - 1], layout)
  }

  predicate Changes(s: State, e: Event, layout: Layout) {
    match e
    case Edit(dto, version, settings) => Update(s, dto, version, settings, layout).Ok?
    case Recompute(read, settings) => ReadsAs(s.doc.lines, read) && Recalculate(s, read, settings, layout).Ok?
    case _ => false
  }

  function ChangeCount(s: State, es: seq<Event>, layout: Layout): nat {
    if es == [] then 0
    else
      var init := es[..|es| - 1];
      ChangeCount(s, init, layout) + if Changes(Run(s, init, layout), es[|es| - 1], layout) then 1 else 0
  }

  // ----- the invariant -----

  // The row is what a content builds under some settings.
  predicate Builds(d: Doc, dto: Dto, settings: seq<Field>, layout: Layout) {
    && Build(dto, Some(settings), layout) == Some(Built(d.lines, d.totals, d.payload))
    && d.header == dto.header && d.extraDiscount == dto.extraDiscount
  }

  // Some content builds the row, and the row's canonical text is the payload's.
  ghost predicate Agrees(d: Doc, layout: Layout) {
    && d.canonical == Canon(d.payload)
    && exists dto: Dto, settings: seq<Field> :: Builds(d, dto, settings, layout)
  }

  // Signatures cover the current text; what was handed out at the current version is the current text.
  predicate SigningMatches(s: State) {
    && (s.doc.signature.Some? ==> s.doc.signature.value.over == s.doc.canonical)
    && (forall h :: 0 <= h < |s.handed| ==>
          s.handed[h].version <= s.doc.version
          && (s.handed[h].version == s.doc.version ==> s.handed[h].text == s.doc.canonical))
  }

  // At most one job is open, and it is for the current version; no job is for a later one.
  predicate JobsMatch(s: State) {
    && (forall j :: 0 <= j < |s.jobs| ==> s.jobs[j].version <= s.doc.version)
    && (forall j :: 0 <= j < |s.jobs| && Open(s.jobs[j]) ==> s.jobs[j].version == s.doc.version)
    && (forall i, j :: 0 <= i < j < |s.jobs| ==> !(Open(s.jobs[i]) && Open(s.jobs[j])))
  }

  ghost predicate Inv(s: State, layout: Layout) {
    Agrees(s.doc, layout) && SigningMatches(s) && JobsMatch(s)
  }

  lemma SavedAgrees(origin: Origin, version: nat, dto: Dto, settings: seq<Field>, layout: Layout)
    requires Build(dto, Some(settings), layout).Some?
    ensures Agrees(Saved(origin, version, dto, Build(dto, Some(settings), layout).value), layout)
  {
    hide Build;
    var b := Build(dto, Some(settings), layout).value;
    assert Builds(Saved(origin, version, dto, b), dto, settings, layout);
  }

  lemma BuildNeedsSettings(dto: Dto, settings: Option<seq<Field>>, layout: Layout)
    requires Build(dto, settings, layout).Some?
    ensures settings.Some?
  {
  }
  // The step saves new content, or leaves the content alone.
  lemma ContentStep(s: State, e: Event, layout: Layout) returns (dto: Dto, settings: Option<seq<Field>>)
    ensures if Changes(s, e, layout)
            then settings.Some? && Build(dto, settings, layout).Some?
                 && var b := Build(dto, settings, layout).value;
                    Step(s, e, layout)
                    == s.(doc := Saved(s.doc.origin, s.doc.version + 1, dto, b), jobs := CancelOpen(s.jobs))
            else var d := Step(s, e, layout).doc;
                 d.(status := s.doc.status, signature := s.doc.signature) == s.doc
  {
    hide CalculateAll, StoreAll, TotalsOf, Saved, CancelOpen, FromStored, MutationError, Payload, ReadsAs;
    dto := if e.Edit? then e.dto else if e.Recompute? then FromStored(s.doc, e.read) else FromStored(s.doc, []);
    settings := if e.Edit? || e.Recompute? then e.settings else None;
  }

  lemma StepKeepsAgreement(s: State, e: Event, layout: Layout)
    requires Agrees(s.doc, layout)
    ensures Agrees(Step(s, e, layout).doc, layout)
  {
    hide Step, Build, Changes, Saved, Agrees;
    var dto, settings := ContentStep(s, e, layout);
    if Changes(s, e, layout) {
      SavedAgrees(s.doc.origin, s.doc.version + 1, dto, settings.value, layout);
    } else {
      SameContentAgrees(s.doc, Step(s, e, layout).doc, layout);
    }
  }

  lemma SameContentAgrees(d: Doc, t: Doc, layout: Layout)
    requires Agrees(d, layout) && t.(status := d.status, signature := d.signature) == d
    ensures Agrees(t, layout)
  {
    hide Build;
    var dto: Dto, settings: seq<Field> :| Builds(d, dto, settings, layout);
    assert Builds(t, dto, settings, layout);
  }

  lemma SaveKeepsSigning(s: State, doc: Doc, jobs: seq<Job>)
    requires SigningMatches(s) && doc.version == s.doc.version + 1 && doc.signature == None
    ensures SigningMatches(s.(doc := doc, jobs := jobs))
  {
  }

  lemma StepKeepsSigning(s: State, e: Event, layout: Layout)
    requires SigningMatches(s) && JobsMatch(s)
    ensures SigningMatches(Step(s, e, layout))
  {
    hide Build, Update, Recalculate, CancelOpen, Canon;
    if Changes(s, e, layout) {
      var dto, settings := ContentStep(s, e, layout);
      SaveKeepsSigning(s, Step(s, e, layout).doc, CancelOpen(s.jobs));
    }
  }

  lemma StepKeepsJobs(s: State, e: Event, layout: Layout)
    requires JobsMatch(s)
    ensures JobsMatch(Step(s, e, layout))
  {
    hide Build, Update, Recalculate;
    if Changes(s, e, layout) {
      var dto, settings := ContentStep(s, e, layout);
    }
  }

  lemma CreatedIsFine(dto: Dto, settings: Option<seq<Field>>, layout: Layout)
    requires Create(dto, settings, layout).Ok?
    ensures Inv(Create(dto, settings, layout).value, layout)
  {
    hide Build, Agrees, Canon;
    BuildNeedsSettings(dto, settings, layout);
    SavedAgrees(Local, 1, dto, settings.value, layout);
  }

  /** In every state a created document can reach, its stored texts and totals agree with its content. */
  lemma {:induction false} RunKeepsInv(dto: Dto, settings: Option<seq<Field>>, es: seq<Event>, layout: Layout)
    requires Create(dto, settings, layout).Ok?
    ensures Inv(Run(Create(dto, settings, layout).value, es, layout), layout)
    decreases |es|
  {
    hide Step, Create, Agrees, SigningMatches, JobsMatch;
    if es == [] {
      CreatedIsFine(dto, settings, layout);
    } else {
      var s := Run(Create(dto, settings, layout).value, es[..|es| - 1], layout);
      RunKeepsInv(dto, settings, es[..|es| - 1], layout);
      StepKeepsAgreement(s, es[|es| - 1], layout);
      StepKeepsSigning(s, es[|es| - 1], layout);
      StepKeepsJobs(s, es[|es| - 1], layout);
    }
  }

  /** A stored signature always covers the canonical text of the content stored beside it. */
  lemma SignatureCoversContent(dto: Dto, settings: Option<seq<Field>>, es: seq<Event>, layout: Layout)
    requires Create(dto, settings, layout).Ok?
    requires Run(Create(dto, settings, layout).value, es, layout).doc.signature.Some?
    ensures var d := Run(Create(dto, settings, layout).value, es, layout).doc;
            d.signature.value.over == Canon(d.payload)
  {
    hide Run, Create, JobsMatch, Canon;
    RunKeepsInv(dto, settings, es, layout);
  }

  // ----- versions -----

  lemma StepCountsVersion(s: State, e: Event, layout: Layout)
    ensures var t := Step(s, e, layout);
            t.doc.version == s.doc.version + (if Changes(s, e, layout) then 1 else 0)
            && (Changes(s, e, layout) ==> t.doc.signature == None && t.doc.status == Draft
                                           && forall j :: 0 <= j < |t.jobs| ==> !Open(t.jobs[j]))
  {
    hide Build, Canon, Update, Recalculate, Step, Changes;
    var dto, settings := ContentStep(s, e, layout);
  }

  /** The version is one more than the number of content changes. */
  lemma {:induction false} VersionCountsChanges(s: State, es: seq<Event>, layout: Layout)
    ensures Run(s, es, layout).doc.version == s.doc.version + ChangeCount(s, es, layout)
    decreases |es|
  {
    hide Step, Changes;
    if es != [] {
      VersionCountsChanges(s, es[..|es| - 1], layout);
      StepCountsVersion(Run(s, es[..|es| - 1], layout), es[|es| - 1], layout);
    }
  }

  predicate EditsAt(s: State, e: Event, version: nat, layout: Layout) {
    e.Edit? && e.version == version && Changes(s, e, layout)
  }

  function EditCount(s: State, es: seq<Event>, version: nat, layout: Layout): nat {
    if es == [] then 0
    else
      var init := es[..|es| - 1];
      EditCount(s, init, version, layout) + if EditsAt(Run(s, init, layout), es[|es| - 1], version, layout) then 1 else 0
  }

  lemma EditNeedsCurrentVersion(s: State, e: Event, version: nat, layout: Layout)
    ensures EditsAt(s, e, version, layout) ==> s.doc.version == version
  {
    hide Build;
  }

  /** Of all edits based on one version at most one is saved: no edit overwrites another unseen. */
  lemma {:induction false} OneEditPerVersion(s: State, es: seq<Event>, version: nat, layout: Layout)
    ensures EditCount(s, es, version, layout) <= if version < Run(s, es, layout).doc.version then 1 else 0
    decreases |es|
  {
    hide Step, Changes, EditsAt;
    if es != [] {
      var before := Run(s, es[..|es| - 1], layout);
      OneEditPerVersion(s, es[..|es| - 1], version, layout);
      EditNeedsCurrentVersion(before, es[|es| - 1], version, layout);
      StepCountsVersion(before, es[|es| - 1], layout);
      EditIsChange(before, es[|es| - 1], version, layout);
    }
  }

  lemma EditIsChange(s: State, e: Event, version: nat, layout: Layout)
    ensures EditsAt(s, e, version, layout) ==> Changes(s, e, layout)
  {
  }

  /** No user request changes the content of an imported document or of one in a locked status. */
  lemma LockedContentIsKept(s: State, e: Event, layout: Layout)
    requires s.doc.origin == EtaSync || !Editable(s.doc.status)
    ensures !Changes(s, e, layout)
    ensures e.MakeReady? ==> Step(s, e, layout) == s
  {
    hide Build;
  }

  // ----- totals -----

  lemma {:induction false} SumOfStored(lines: seq<LineInput>, computed: seq<LineComputed>,
                                       f: LineComputed -> int, g: StoredLine -> int)
    requires |lines| == |computed|
    requires forall i :: 0 <= i < |lines| ==> f(computed[i]) == g(Store(lines[i], computed[i]))
    ensures Sum(computed, f) == Sum(StoreAll(lines, computed), g)
    decreases |lines|
  {
    hide Store;
    if lines != [] {
      var n := |lines| - 1;
      SumOfStored(lines[..n], computed[..n], f, g);
      assert StoreAll(lines, computed)[..n] == StoreAll(lines[..n], computed[..n]);
    }
  }

  // The document's totals are the sums of its stored line columns.
  predicate TotalsAdd(d: Doc) {
    && d.totals.totalSalesAmount == Sum(d.lines, (l: StoredLine) => l.salesTotal)
    && d.totals.totalDiscountAmount == Sum(d.lines, (l: StoredLine) => l.discountAmount)
    && d.totals.netAmount == Sum(d.lines, (l: StoredLine) => l.netTotal)
    && d.totals.totalItemsDiscountAmount == Sum(d.lines, (l: StoredLine) => l.itemsDiscount)
    && d.totals.totalAmount == Sum(d.lines, (l: StoredLine) => l.total) - d.extraDiscount
    && d.totals.extraDiscountAmount == d.extraDiscount
  }

  lemma AgreementAdds(d: Doc, layout: Layout)
    requires Agrees(d, layout)
    ensures TotalsAdd(d)
  {
    hide CalculateAll, Canon, Sum;
    var dto: Dto, settings: seq<Field> :| Builds(d, dto, settings, layout);
    var computed := CalculateAll(dto.lines).value;
    SumOfStored(dto.lines, computed, (l: LineComputed) => l.salesTotal, (l: StoredLine) => l.salesTotal);
    SumOfStored(dto.lines, computed, (l: LineComputed) => l.discount, (l: StoredLine) => l.discountAmount);
    SumOfStored(dto.lines, computed, (l: LineComputed) => l.netTotal, (l: StoredLine) => l.netTotal);
    SumOfStored(dto.lines, computed, (l: LineComputed) => l.itemsDiscount, (l: StoredLine) => l.itemsDiscount);
    SumOfStored(dto.lines, computed, (l: LineComputed) => l.total, (l: StoredLine) => l.total);
  }

  /** In every reachable state the stored totals are the sums of the stored lines. */
  lemma StoredTotalsAdd(dto: Dto, settings: Option<seq<Field>>, es: seq<Event>, layout: Layout)
    requires Create(dto, settings, layout).Ok?
    ensures TotalsAdd(Run(Create(dto, settings, layout).value, es, layout).doc)
  {
    hide Run, Create, SigningMatches, JobsMatch, Agrees, TotalsAdd;
    RunKeepsInv(dto, settings, es, layout);
    AgreementAdds(Run(Create(dto, settings, layout).value, es, layout).doc, layout);
  }

  // ----- the payload's amounts -----

  // What the local check reads of the payload is what is stored beside it, and it finds nothing wrong.
  predicate PayloadMatches(d: Doc) {
    && PayloadIssues(d.payload) == []
    && ReadPayload(d.payload)
       == Some(Declared(DeclaredRows(d.lines), Some(d.totals.netAmount), Some(d.totals.totalAmount),
                        Some(d.totals.extraDiscountAmount)))
  }

  lemma AgreementPasses(d: Doc, layout: Layout)
    requires Agrees(d, layout)
    ensures PayloadMatches(d)
  {
    hide CalculateAll, Canon, Payload, ReadPayload, PayloadIssues, TotalsOf, Calculated, Store, DeclaredRow;
    var dto: Dto, settings: seq<Field> :| Builds(d, dto, settings, layout);
    CalculatesEach(dto.lines);
    var computed := CalculateAll(dto.lines).value;
    BuiltPayloadsPass(layout, dto.header, settings, d.lines, dto.lines, computed, dto.extraDiscount);
    ReadsPayload(layout, dto.header, settings, d.lines, d.totals);
  }

  /** In every reachable state the stored payload declares the stored amounts, and the local check accepts it. */
  lemma StoredPayloadPasses(dto: Dto, settings: Option<seq<Field>>, es: seq<Event>, layout: Layout)
    requires Create(dto, settings, layout).Ok?
    ensures PayloadMatches(Run(Create(dto, settings, layout).value, es, layout).doc)
  {
    hide Run, Create, SigningMatches, JobsMatch, Agrees, PayloadMatches;
    RunKeepsInv(dto, settings, es, layout);
    AgreementPasses(Run(Create(dto, settings, layout).value, es, layout).doc, layout);
  }
}
