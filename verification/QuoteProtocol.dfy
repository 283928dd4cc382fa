/**
 Quoting a project in SAP with lost answers and company switches
 (apps/server/src/config-quote.ts `createQuote`, b1.ts `adoptCompany` and `quotationIn`, the company guard
 of apps/agent/server.go).

 One project, one attempt at a time, SAP as one document store per company. An attempt may stop between any
 two steps, and SAP may apply a write whose answer never arrives. Anything else goes on meanwhile: staff
 edit, close and open documents, the agent is moved to another company, other requests adopt it, the
 project's picks change. A document's key is this project's command id; QuoteCommand.dfy shows that equal
 ids mean equal picks and an equal replaced document, so the id is modelled as that pair.
 */
module QuoteProtocol {
  import opened Options

  type Company = string
  type DocEntry = int

  /** What the command id hashes: candidates, selection and tables, and the quotation it replaces. */
  datatype Key = Key(picks: nat, replaced: Option<DocEntry>)

  /** `key` is None for a document that carries no command id of this project. */
  datatype Doc = Doc(key: Option<Key>, open: bool, etag: nat)

  type Store = map<DocEntry, Doc>
  type Stores = map<Company, Store>

  datatype Status = Workable | Elsewhere | Quoted

  /** `picks` is None while nothing is calculated. */
  datatype Row = Row(docEntry: Option<DocEntry>, company: Option<Company>, status: Status, picks: Option<nat>)

  /** The next call of an attempt. `Landing` is the transition that records the quotation. */
  datatype At =
    | Reading
    | Patching(etag: nat)
    | Rereading
    | Searching
    | Creating
    | Landing(docEntry: DocEntry, created: bool)

  /** `company` is the connector's, `here` and `entry` were decided from the row against it. */
  datatype Attempt = Attempt(company: Option<Company>, here: bool, entry: Option<DocEntry>, id: Key, at: At)

  /** `tenant`: the company Confire last adopted. `served`: the one the agent is in. */
  datatype System = System(
    row: Row, tenant: Option<Company>, served: Company, stores: Stores, attempt: Option<Attempt>)

  function StoreOf(all: Stores, c: Company): Store {
    if c in all then all[c] else map[]
  }

  function WithDoc(all: Stores, c: Company, d: DocEntry, doc: Doc): Stores {
    all[c := StoreOf(all, c)[d := doc]]
  }

  function PutDoc(s: System, c: Company, d: DocEntry, doc: Doc): System {
    s.(stores := WithDoc(s.stores, c, d, doc))
  }

  // ---- The company a decision is about ---------------------------------------------------------------

  /** `quotationIn`. */
  predicate QuotationIn(row: Row, company: Option<Company>) {
    row.docEntry.Some? && row.company == company
  }

  /** `adoptCompany`: a row that names a quotation and no company gets the adopted one. */
  function Adopt(s: System, c: Company): System {
    if s.tenant == Some(c) then s
    else
      s.(tenant := Some(c),
         row := if s.row.docEntry.Some? && s.row.company.None? then s.row.(company := Some(c)) else s.row)
  }

  // ---- The attempt -------------------------------------------------------------------------------------

  /** `commandIdOf`. */
  function CommandId(row: Row, here: bool): Key
    requires row.picks.Some? && (here ==> row.docEntry.Some?)
  {
    Key(row.picks.value, if here then row.docEntry else None)
  }

  /** Everything before the first SAP call; `id` is what the page was shown. */
  function Begin(s: System, id: Key): System {
    var here := QuotationIn(s.row, s.tenant);
    if s.attempt.Some? || s.row.picks.None? || !s.row.status.Workable? || CommandId(s.row, here) != id then s
    else s.(attempt := Some(Attempt(s.tenant, here, s.row.docEntry, id, if here then Reading else Searching)))
  }

  /** `createQuote` on a project already quoted here answers from the row. */
  function Already(s: System): Option<DocEntry> {
    if s.row.status.Quoted? && QuotationIn(s.row, s.tenant) then s.row.docEntry else None
  }

  function Die(s: System): System {
    s.(attempt := None)
  }

  function Go(s: System, a: Attempt, at: At): System {
    s.(attempt := Some(a.(at := at)))
  }

  function Read(s: System, a: Attempt, store: Store): System
    requires a.entry.Some?
  {
    var d := a.entry.value;
    if d !in store then Die(s)
    else if !store[d].open then Go(s, a, Searching)
    else if store[d].key == Some(a.id) then Go(s, a, Landing(d, false))
    else Go(s, a, Patching(store[d].etag))
  }

  /** How SAP's answer to a write arrives: as given, not at all, or as a 412 after the write was applied. */
  datatype Answer = Given | Lost | Repeated

  function Patch(s: System, a: Attempt, c: Company, store: Store, etag: nat, next: nat, answer: Answer): System
    requires a.entry.Some?
  {
    var d := a.entry.value;
    if d !in store then Die(s)
    else if store[d].etag != etag then Go(s, a, Rereading)
    else
      var s' := PutDoc(s, c, d, store[d].(key := Some(a.id), etag := next));
      match answer
      case Given => Go(s', a, Landing(d, false))
      case Lost => Die(s')
      case Repeated => Go(s', a, Rereading)
  }

  function Reread(s: System, a: Attempt, store: Store): System
    requires a.entry.Some?
  {
    var d := a.entry.value;
    if d in store && store[d].key == Some(a.id) then Go(s, a, Landing(d, false)) else Die(s)
  }

  /** The dedup filter: the key, and not the quotation being replaced. */
  predicate Matches(a: Attempt, store: Store, d: DocEntry) {
    d in store && store[d].key == Some(a.id) && (a.here ==> a.entry != Some(d))
  }

  /** `top: 1`: SAP answers with any one match, `first`. */
  function Search(s: System, a: Attempt, store: Store, first: DocEntry): System {
    if Matches(a, store, first) then Go(s, a, Landing(first, true))
    else if exists d :: d in store && Matches(a, store, d) then s
    else Go(s, a, Creating)
  }

  function Create(s: System, a: Attempt, c: Company, store: Store, d: DocEntry, next: nat, answer: Answer): System {
    if d in store then s
    else
      var s' := PutDoc(s, c, d, Doc(Some(a.id), true, next));
      if answer.Given? then Go(s', a, Landing(d, true)) else Die(s')
  }

  /** One SAP call. The agent refuses it unless it names the company it serves; Confire then adopts that one. */
  function Call(s: System, a: Attempt, d: DocEntry, next: nat, answer: Answer): System
    requires !a.at.Landing?
    requires a.at.Reading? || a.at.Patching? || a.at.Rereading? ==> a.entry.Some?
  {
    if a.company != Some(s.served) then Adopt(Die(s), s.served)
    else
      var c := s.served;
      var store := StoreOf(s.stores, c);
      match a.at
      case Reading => Read(s, a, store)
      case Patching(etag) => Patch(s, a, c, store, etag, next, answer)
      case Rereading => Reread(s, a, store)
      case Searching => Search(s, a, store, d)
      case Creating => Create(s, a, c, store, d, next, answer)
  }

  /** The quote transition, on the row as it then is. */
  function Land(s: System, a: Attempt, d: DocEntry): System {
    if !s.row.status.Workable? then Die(s)
    else s.(row := s.row.(docEntry := Some(d), company := a.company, status := Quoted), attempt := None)
  }

  function Advance(s: System, d: DocEntry, next: nat, answer: Answer): System {
    match s.attempt
    case None => s
    case Some(a) =>
      if a.at.Landing? then Land(s, a, a.at.docEntry)
      else if (a.at.Reading? || a.at.Patching? || a.at.Rereading?) && a.entry.None? then s
      else Call(s, a, d, next, answer)
  }

  // ---- Everything else -----------------------------------------------------------------------------------

  /** Staff in SAP edit, close or open a document. Its key is Confire's own field and stays. */
  function EditDoc(s: System, c: Company, d: DocEntry, open: bool, next: nat): System {
    if d in StoreOf(s.stores, c) then PutDoc(s, c, d, StoreOf(s.stores, c)[d].(open := open, etag := next)) else s
  }

  function NewDoc(s: System, c: Company, d: DocEntry, next: nat): System {
    if d in StoreOf(s.stores, c) then s else PutDoc(s, c, d, Doc(None, true, next))
  }

  /** The project's other writes: its picks, and the statuses it moves through. Only a client's answer reopens it. */
  function EditRow(s: System, picks: Option<nat>, status: Status): System {
    if status.Quoted? then s
    else s.(row := s.row.(picks := picks, status := status))
  }

  datatype Action =
    | DoBegin(id: Key)
    | DoAdvance(docEntry: DocEntry, next: nat, answer: Answer)
    | DoDie
    | Serve(company: Company)
    | DoAdopt
    | DoEditDoc(c: Company, docEntry: DocEntry, open: bool, next: nat)
    | DoNewDoc(c: Company, docEntry: DocEntry, next: nat)
    | DoEditRow(picks: Option<nat>, status: Status)

  function Step(s: System, a: Action): System {
    match a
    case DoBegin(id) => Begin(s, id)
    case DoAdvance(d, next, answer) => Advance(s, d, next, answer)
    case DoDie => Die(s)
    case Serve(c) => s.(served := c)
    case DoAdopt => Adopt(s, s.served)
    case DoEditDoc(c, d, open, next) => EditDoc(s, c, d, open, next)
    case DoNewDoc(c, d, next) => NewDoc(s, c, d, next)
    case DoEditRow(picks, status) => EditRow(s, picks, status)
  }

  function Run(s: System, actions: seq<Action>): System {
    if actions == [] then s else Step(Run(s, actions[..|actions| - 1]), actions[|actions| - 1])
  }

  /** A project never quoted, in front of any SAP whose documents carry none of its command ids. */
  ghost predicate Initial(s: System) {
    && s.row.docEntry.None? && s.row.company.None? && !s.row.status.Quoted? && s.attempt.None?
    && forall c, d :: d in StoreOf(s.stores, c) ==> StoreOf(s.stores, c)[d].key.None?
  }

  // ---- The invariant -----------------------------------------------------------------------------------------

  predicate Carries(all: Stores, c: Company, d: DocEntry, k: Key) {
    d in StoreOf(all, c) && StoreOf(all, c)[d].key == Some(k)
  }

  /** At most one document of a company carries a command id, besides the quotation that id replaces. */
  ghost predicate OneCarrier(all: Stores) {
    forall c, k, d, d' ::
        Carries(all, c, d, k) && Carries(all, c, d', k) && k.replaced != Some(d) && k.replaced != Some(d') ==> d == d'
  }

  /** The stored quotation exists in the stored company. */
  ghost predicate RowNames(s: System) {
    s.row.docEntry.Some? ==> s.row.company.Some? && s.row.docEntry.value in StoreOf(s.stores, s.row.company.value)
  }

  ghost predicate NoCarrier(all: Stores, c: Company, k: Key) {
    forall d :: Carries(all, c, d, k) ==> k.replaced == Some(d)
  }

  ghost predicate AttemptInv(s: System, a: Attempt) {
    && a.id.replaced == (if a.here then a.entry else None)
    && (a.here ==> a.entry.Some? && a.company.Some? && s.row.docEntry == a.entry && s.row.company == a.company)
    && (a.at.Reading? || a.at.Patching? || a.at.Rereading? ==> a.here)
    && (a.at.Creating? ==> a.company.Some? && NoCarrier(s.stores, a.company.value, a.id))
    && (a.at.Landing? ==>
          && a.company.Some? && Carries(s.stores, a.company.value, a.at.docEntry, a.id)
          && (a.at.created <==> a.id.replaced != Some(a.at.docEntry)))
  }

  ghost predicate Inv(s: System) {
    && OneCarrier(s.stores)
    && RowNames(s)
    && (s.attempt.Some? ==> AttemptInv(s, s.attempt.value))
  }

  lemma PutCarries(all: Stores, c: Company, d: DocEntry, doc: Doc, c': Company, d': DocEntry, k: Key)
    ensures Carries(WithDoc(all, c, d, doc), c', d', k) <==>
        if (c', d') == (c, d) then doc.key == Some(k) else Carries(all, c', d', k)
  {
  }

  /** A write to one document that adds no second carrier. */
  lemma PutKeeps(all: Stores, c: Company, d: DocEntry, doc: Doc)
    requires OneCarrier(all)
    requires doc.key.None? || doc.key.value.replaced == Some(d) || Carries(all, c, d, doc.key.value)
        || NoCarrier(all, c, doc.key.value)
    ensures OneCarrier(WithDoc(all, c, d, doc))
    ensures forall c', d' :: d' in StoreOf(all, c') ==> d' in StoreOf(WithDoc(all, c, d, doc), c')
    ensures forall k :: Carries(WithDoc(all, c, d, doc), c, d, k) <==> doc.key == Some(k)
  {
    var after := WithDoc(all, c, d, doc);
    forall c', k, x, y | Carries(after, c', x, k) && Carries(after, c', y, k) && k.replaced != Some(x)
        && k.replaced != Some(y)
      ensures x == y
    {
      PutCarries(all, c, d, doc, c', x, k);
      PutCarries(all, c, d, doc, c', y, k);
    }
  }

  lemma AttemptKeeps(s: System, a: Attempt, d: DocEntry, next: nat, answer: Answer)
    requires Inv(s) && s.attempt == Some(a) && !a.at.Landing? && a.company == Some(s.served)
    ensures Inv(Call(s, a, d, next, answer))
  {
    var c := s.served;
    var store := StoreOf(s.stores, c);
    match a.at
    case Reading =>
    case Patching(etag) =>
      var e := a.entry.value;
      PutKeeps(s.stores, c, e, store[e].(key := Some(a.id), etag := next));
    case Rereading =>
    case Searching =>
      if !(exists e :: e in store && Matches(a, store, e)) {
        forall e | Carries(s.stores, c, e, a.id)
          ensures a.id.replaced == Some(e)
        {
          assert !Matches(a, store, e);
        }
      }
    case Creating =>
      if d !in store { PutKeeps(s.stores, c, d, Doc(Some(a.id), true, next)); }
  }

  lemma StepKeepsInv(s: System, a: Action)
    requires Inv(s)
    ensures Inv(Step(s, a))
  {
    match a
    case DoAdvance(d, next, answer) =>
      if s.attempt.Some? && !s.attempt.value.at.Landing? && s.attempt.value.company == Some(s.served) {
        AttemptKeeps(s, s.attempt.value, d, next, answer);
      }
    case DoEditDoc(c, d, open, next) =>
      if d in StoreOf(s.stores, c) { PutKeeps(s.stores, c, d, StoreOf(s.stores, c)[d].(open := open, etag := next)); }
    case DoNewDoc(c, d, next) =>
      if d !in StoreOf(s.stores, c) { PutKeeps(s.stores, c, d, Doc(None, true, next)); }
    case _ =>
  }

  lemma {:induction false} RunKeepsInv(s: System, actions: seq<Action>)
    requires Inv(s)
    ensures Inv(Run(s, actions))
  {
    if actions != [] {
      RunKeepsInv(s, actions[..|actions| - 1]);
      StepKeepsInv(Run(s, actions[..|actions| - 1]), actions[|actions| - 1]);
    }
  }

  lemma {:induction false} FromStart(s0: System, actions: seq<Action>)
    requires Initial(s0)
    ensures Inv(Run(s0, actions))
  {
    assert forall c, d, k :: !Carries(s0.stores, c, d, k);
    RunKeepsInv(s0, actions);
  }

  // ---- What an attempt that returns has written --------------------------------------------------------------

  /**
   Whatever died, was lost or was switched before: a company never holds two quotations under one command
   id besides the replaced one, and the quotation about to be recorded carries the id. On the create path
   it is that one; on the modify path it is the replaced one itself.
   */
  lemma QuoteNamesItsDocument(s0: System, actions: seq<Action>)
    requires Initial(s0)
    ensures var s := Run(s0, actions);
            && OneCarrier(s.stores)
            && (s.attempt.Some? && s.attempt.value.at.Landing? ==>
                  var a := s.attempt.value;
                  && a.company.Some?
                  && Carries(s.stores, a.company.value, a.at.docEntry, a.id)
                  && (if a.at.created
                      then forall e ::
                          Carries(s.stores, a.company.value, e, a.id) ==> e == a.at.docEntry || a.id.replaced == Some(e)
                      else a.here && a.id.replaced == Some(a.at.docEntry)))
  {
    FromStart(s0, actions);
  }

  /** The stored quotation always exists in the stored company, also when it is answered without asking SAP. */
  lemma StoredQuotationExists(s0: System, actions: seq<Action>)
    requires Initial(s0)
    ensures var s := Run(s0, actions);
            && RowNames(s)
            && (Already(s).Some? ==> s.tenant.Some? && Already(s).value in StoreOf(s.stores, s.tenant.value))
  {
    FromStart(s0, actions);
  }

  // ---- Company switches ----------------------------------------------------------------------------------------

  /** Steps of the attempt itself and of everything but SAP's own users. */
  predicate Ours(a: Action) {
    a.DoAdvance? || a.DoDie? || a.Serve? || a.DoAdopt? || a.DoEditRow?
  }

  /**
   Attempt `a` reached `s` from documents `all`: still about the same company, and it has written nothing but its
   own.
   */
  ghost predicate OnlyItsOwn(all: Stores, a: Attempt, s: System) {
    (s.attempt.Some? ==> s.attempt.value == a.(at := s.attempt.value.at)) && OnlyOwnWrites(all, a, s.stores)
  }

  ghost predicate OnlyOwnWrites(all: Stores, a: Attempt, now: Stores) {
    && (forall c :: a.company != Some(c) ==> StoreOf(now, c) == StoreOf(all, c))
    && (forall c, d :: d in StoreOf(all, c) ==> KeptOrOwn(all, a, now, c, d))
  }

  ghost predicate KeptOrOwn(all: Stores, a: Attempt, now: Stores, c: Company, d: DocEntry)
    requires d in StoreOf(all, c)
  {
    && d in StoreOf(now, c)
    && (StoreOf(now, c)[d] == StoreOf(all, c)[d] || (a.here && a.entry == Some(d) && a.company == Some(c)))
  }

  lemma OneMoreOwnWrite(all: Stores, a: Attempt, now: Stores, c: Company, d: DocEntry, doc: Doc)
    requires OnlyOwnWrites(all, a, now) && a.company == Some(c)
    requires d !in StoreOf(now, c) || (a.here && a.entry == Some(d))
    ensures OnlyOwnWrites(all, a, WithDoc(now, c, d, doc))
  {
    var after := WithDoc(now, c, d, doc);
    forall c', d' | d' in StoreOf(all, c')
      ensures KeptOrOwn(all, a, after, c', d')
    {
      assert KeptOrOwn(all, a, now, c', d');
    }
  }

  lemma StepStaysInItsCompany(all: Stores, a: Attempt, s: System, step: Action)
    requires Inv(s) && OnlyItsOwn(all, a, s) && Ours(step)
    ensures OnlyItsOwn(all, a, Step(s, step))
  {
    if step.DoAdvance? && s.attempt.Some? {
      var now := s.attempt.value;
      var store := StoreOf(s.stores, s.served);
      if now.at.Creating? && now.company == Some(s.served) && step.docEntry !in store {
        OneMoreOwnWrite(all, a, s.stores, s.served, step.docEntry, Doc(Some(now.id), true, step.next));
      } else if now.at.Patching? && now.company == Some(s.served) && now.entry.value in store {
        var d := now.entry.value;
        OneMoreOwnWrite(all, a, s.stores, s.served, d, store[d].(key := Some(now.id), etag := step.next));
      }
    }
  }

  /**
   Wherever switches and adoptions fall inside an attempt, it writes in the company it was decided against
   and nowhere else, and the only existing document it changes is the one the row named there.
   */
  lemma {:induction false} AttemptStaysInItsCompany(s0: System, actions: seq<Action>, more: seq<Action>)
    requires Initial(s0) && Run(s0, actions).attempt.Some?
    requires forall i | 0 <= i < |more| :: Ours(more[i])
    ensures var s := Run(s0, actions);
            OnlyItsOwn(s.stores, s.attempt.value, Run(s, more))
            && (s.attempt.value.here ==>
                s.row.docEntry == s.attempt.value.entry && s.row.company == s.attempt.value.company)
  {
    FromStart(s0, actions);
    var s := Run(s0, actions);
    if more != [] {
      AttemptStaysInItsCompany(s0, actions, more[..|more| - 1]);
      RunKeepsInv(s, more[..|more| - 1]);
      StepStaysInItsCompany(s.stores, s.attempt.value, Run(s, more[..|more| - 1]), more[|more| - 1]);
    }
  }

  // ---- What is not written again -----------------------------------------------------------------------------------

  /**
   An attempt that has nothing left to write: it finds its own id on the open quotation, or the quotation was
   edited since it read it, or it is past its write.
   */
  ghost predicate Settled(s: System) {
    s.attempt.Some? ==>
      var a := s.attempt.value;
      var store := if a.company.Some? then StoreOf(s.stores, a.company.value) else map[];
      match a.at
      case Reading => a.entry.Some? && a.entry.value in store && store[a.entry.value].open
          && store[a.entry.value].key == Some(a.id)
      case Patching(etag) => a.entry.Some? && a.entry.value in store && store[a.entry.value].etag != etag
      case Rereading => true
      case Landing(_, _) => true
      case _ => false
  }

  lemma SettledStays(s: System, step: Action)
    requires Inv(s) && Settled(s) && Ours(step)
    ensures Settled(Step(s, step)) && Step(s, step).stores == s.stores
  {
  }

  /** A retry whose id is there already changes no document, and neither does one that somebody's edit overtook. */
  lemma {:induction false} NothingWrittenTwice(s0: System, actions: seq<Action>, more: seq<Action>)
    requires Initial(s0) && Settled(Run(s0, actions))
    requires forall i | 0 <= i < |more| :: Ours(more[i])
    ensures var s := Run(s0, actions); Run(s, more).stores == s.stores && Settled(Run(s, more))
  {
    if more != [] {
      var s := Run(s0, actions);
      FromStart(s0, actions);
      NothingWrittenTwice(s0, actions, more[..|more| - 1]);
      RunKeepsInv(s, more[..|more| - 1]);
      SettledStays(Run(s, more[..|more| - 1]), more[|more| - 1]);
    }
  }

  // ---- Created once ----------------------------------------------------------------------------------------------

  ghost predicate SamePair(s: System, u: System) {
    u.row.docEntry == s.row.docEntry && u.row.company == s.row.company
  }

  /** No attempt of the run records a quotation. */
  ghost predicate Unrecorded(s: System, more: seq<Action>) {
    more == [] || (SamePair(s, Run(s, more)) && Unrecorded(s, more[..|more| - 1]))
  }

  lemma StepKeepsCarrier(s: System, step: Action, c: Company, d: DocEntry, k: Key)
    requires Inv(s) && Carries(s.stores, c, d, k)
    requires !(s.row.company == Some(c) && s.row.docEntry == Some(d))
    ensures Carries(Step(s, step).stores, c, d, k)
  {
  }

  /**
   Once a quotation carries a command id, no number of further attempts, each stopping anywhere, puts
   another one beside it until one of them is recorded.
   */
  lemma {:induction false} CreatedOnce(s0: System, actions: seq<Action>, more: seq<Action>, c: Company, d: DocEntry,
                                       k: Key)
    requires Initial(s0)
    requires var s := Run(s0, actions);
             && Carries(s.stores, c, d, k) && k.replaced != Some(d)
             && !(s.row.company == Some(c) && s.row.docEntry == Some(d))
             && Unrecorded(s, more)
    ensures forall e :: Carries(Run(Run(s0, actions), more).stores, c, e, k) && k.replaced != Some(e) <==> e == d
  {
    var s := Run(s0, actions);
    FromStart(s0, actions);
    RunKeepsInv(s, more);
    if more != [] {
      var before := more[..|more| - 1];
      CreatedOnce(s0, actions, before, c, d, k);
      RunKeepsInv(s, before);
      assert SamePair(s, Run(s, before)) by { if before != [] { assert Unrecorded(s, before); } }
      assert Carries(Run(s, before).stores, c, d, k);
      StepKeepsCarrier(Run(s, before), more[|more| - 1], c, d, k);
    }
  }

  // ---- A re-quote modifies what is open and replaces what is closed ------------------------------------------

  /** From `all` to `now` no document came or went, and none but `d` of company `c` changed; it is as open as before. */
  ghost predicate OnlyDocChanged(all: Stores, now: Stores, c: Company, d: DocEntry) {
    && (forall x :: StoreOf(now, x).Keys == StoreOf(all, x).Keys)
    && (forall x, e :: e in StoreOf(all, x) && (x != c || e != d) ==> Unchanged(all, now, x, e))
    && d in StoreOf(all, c) && d in StoreOf(now, c) && StoreOf(now, c)[d].open == StoreOf(all, c)[d].open
  }

  ghost predicate Unchanged(all: Stores, now: Stores, c: Company, d: DocEntry) {
    d in StoreOf(all, c) && d in StoreOf(now, c) && StoreOf(now, c)[d] == StoreOf(all, c)[d]
  }

  predicate StandsOpen(all: Stores, c: Company, d: DocEntry) {
    d in StoreOf(all, c) && StoreOf(all, c)[d].open
  }

  /** The project names quotation `d` of company `c`, and staff may quote it again. */
  ghost predicate Requotes(s: System, c: Company, d: DocEntry) {
    && s.attempt.None? && s.row.status.Workable? && s.row.picks.Some?
    && s.row.docEntry == Some(d) && s.row.company == Some(c) && s.tenant == Some(c)
  }

  function RequoteId(s: System, d: DocEntry): Key
    requires s.row.picks.Some?
  {
    Key(s.row.picks.value, Some(d))
  }

  /** An attempt about the open quotation `d`, or what it left. */
  ghost predicate InPlace(s: System, u: System, c: Company, d: DocEntry) {
    && u.row.docEntry == Some(d) && u.row.company == Some(c) && OnlyDocChanged(s.stores, u.stores, c, d)
    && StoreOf(u.stores, c)[d].open
    && (u.attempt.Some? ==>
          var a := u.attempt.value;
          && a.here && a.entry == Some(d) && a.company == Some(c)
          && (a.at.Reading? || a.at.Patching? || a.at.Rereading? || a.at == Landing(d, false)))
  }

  lemma StepStaysInPlace(s: System, u: System, c: Company, d: DocEntry, step: Action)
    requires InPlace(s, u, c, d) && Ours(step)
    ensures InPlace(s, Step(u, step), c, d)
  {
    StepKeepsOthers(s, u, c, d, step);
  }

  lemma PutOnlyThere(all: Stores, now: Stores, c: Company, d: DocEntry, doc: Doc)
    requires OnlyDocChanged(all, now, c, d) && doc.open == StoreOf(all, c)[d].open
    ensures OnlyDocChanged(all, WithDoc(now, c, d, doc), c, d)
  {
    forall x, e | e in StoreOf(all, x) && (x != c || e != d) ensures Unchanged(all, WithDoc(now, c, d, doc), x, e) {
      assert Unchanged(all, now, x, e);
    }
  }

  lemma StepKeepsOthers(s: System, u: System, c: Company, d: DocEntry, step: Action)
    requires InPlace(s, u, c, d) && Ours(step)
    ensures OnlyDocChanged(s.stores, Step(u, step).stores, c, d)
  {
    if step.DoAdvance? && u.attempt.Some? && u.attempt.value.at.Patching? && u.served == c {
      var doc := StoreOf(u.stores, c)[d];
      PutOnlyThere(s.stores, u.stores, c, d, doc.(key := Some(u.attempt.value.id), etag := step.next));
    } else {
      assert Step(u, step).stores == u.stores;
    }
  }

  lemma {:induction false} RunStaysInPlace(s: System, u: System, c: Company, d: DocEntry, more: seq<Action>)
    requires InPlace(s, u, c, d) && forall i | 0 <= i < |more| :: Ours(more[i])
    ensures InPlace(s, Run(u, more), c, d)
  {
    if more != [] {
      RunStaysInPlace(s, u, c, d, more[..|more| - 1]);
      StepStaysInPlace(s, Run(u, more[..|more| - 1]), c, d, more[|more| - 1]);
    }
  }

  /**
   A project whose quotation is open here is re-quoted in that quotation. Whatever answers get lost or repeated,
   wherever the attempt stops and whatever moves on around it, no document is added, no other one changes, and the row
   names the same quotation throughout.
   */
  lemma OpenIsModifiedInPlace(s: System, c: Company, d: DocEntry, more: seq<Action>)
    requires Requotes(s, c, d) && StandsOpen(s.stores, c, d)
    requires forall i | 0 <= i < |more| :: Ours(more[i])
    ensures var u := Run(Step(s, DoBegin(RequoteId(s, d))), more);
            && u.row.docEntry == Some(d) && u.row.company == Some(c)
            && OnlyDocChanged(s.stores, u.stores, c, d)
  {
    RunStaysInPlace(s, Step(s, DoBegin(RequoteId(s, d))), c, d, more);
  }

  ghost predicate AllUnchanged(all: Stores, now: Stores) {
    forall x, e :: e in StoreOf(all, x) ==> Unchanged(all, now, x, e)
  }

  /** An attempt with id `k` about the closed quotation `d`, or what it left. */
  ghost predicate Replacing(s: System, u: System, c: Company, d: DocEntry, k: Key) {
    && AllUnchanged(s.stores, u.stores) && u.row.company == Some(c)
    && d in StoreOf(s.stores, c) && Unchanged(s.stores, u.stores, c, d) && !StoreOf(s.stores, c)[d].open
    && (if u.row.docEntry == Some(d) then !u.row.status.Quoted? else ReplacedBy(u, c, d, k))
    && (u.attempt.Some? ==>
          var a := u.attempt.value;
          && a.here && a.entry == Some(d) && a.company == Some(c) && a.id == k
          && (a.at.Reading? || a.at.Searching? || a.at.Creating? || (a.at.Landing? && a.at.docEntry != d)))
  }

  /** The row names another quotation of the company, which carries the id. */
  ghost predicate ReplacedBy(u: System, c: Company, d: DocEntry, k: Key) {
    && u.attempt.None? && u.row.docEntry.Some? && u.row.docEntry.value != d
    && Carries(u.stores, c, u.row.docEntry.value, k)
  }

  lemma StepStaysReplacing(s: System, u: System, c: Company, d: DocEntry, k: Key, step: Action)
    requires Inv(u) && Replacing(s, u, c, d, k) && Ours(step)
    ensures Replacing(s, Step(u, step), c, d, k)
  {
    var u' := Step(u, step);
    forall x, e | e in StoreOf(s.stores, x) ensures Unchanged(s.stores, u'.stores, x, e) {
      assert Unchanged(s.stores, u.stores, x, e);
    }
  }

  lemma {:induction false} RunStaysReplacing(s: System, u: System, c: Company, d: DocEntry, k: Key, more: seq<Action>)
    requires Inv(u) && Replacing(s, u, c, d, k) && forall i | 0 <= i < |more| :: Ours(more[i])
    ensures Replacing(s, Run(u, more), c, d, k)
  {
    if more != [] {
      RunStaysReplacing(s, u, c, d, k, more[..|more| - 1]);
      RunKeepsInv(u, more[..|more| - 1]);
      StepStaysReplacing(s, Run(u, more[..|more| - 1]), c, d, k, more[|more| - 1]);
    }
  }

  /**
   A quotation that SAP has closed is left as it is, and so is every other document there was. Whatever happens to the
   attempt, the row names the closed one until it names another that carries the command id.
   */
  lemma ClosedIsReplaced(s0: System, actions: seq<Action>, c: Company, d: DocEntry, more: seq<Action>)
    requires Initial(s0)
    requires var s := Run(s0, actions);
             Requotes(s, c, d) && !StandsOpen(s.stores, c, d)
    requires forall i | 0 <= i < |more| :: Ours(more[i])
    ensures var s := Run(s0, actions); var k := RequoteId(s, d); var u := Run(Step(s, DoBegin(k)), more);
            && AllUnchanged(s.stores, u.stores)
            && (if u.row.docEntry == Some(d) then !u.row.status.Quoted? else ReplacedBy(u, c, d, k))
            && u.row.company == Some(c)
  {
    var s := Run(s0, actions);
    var k := RequoteId(s, d);
    FromStart(s0, actions);
    StepKeepsInv(s, DoBegin(k));
    RunStaysReplacing(s, Step(s, DoBegin(k)), c, d, k, more);
  }

  /** A modify that SAP applied and answered with 412 is recorded all the same: the reread finds the id. */
  lemma RepeatedIsRecorded(s0: System, actions: seq<Action>, x: DocEntry, next: nat)
    requires Initial(s0)
    requires var s := Run(s0, actions);
             && s.attempt.Some? && Alone(s, s.attempt.value) && s.attempt.value.at.Patching?
             && var a := s.attempt.value; var store := StoreOf(s.stores, s.served);
                a.entry.Some? && a.entry.value in store && store[a.entry.value].etag == a.at.etag
    ensures var s := Run(s0, actions); var a := s.attempt.value;
            var step := DoAdvance(x, next, Given);
            var u := Step(Step(Step(s, DoAdvance(x, next, Repeated)), step), step);
            Recorded(u, s.served, a.id) && u.row.docEntry == a.entry
  {
    var s := Run(s0, actions);
    var a := s.attempt.value;
    FromStart(s0, actions);
    var s1 := Step(s, DoAdvance(x, next, Repeated));
    StepKeepsInv(s, DoAdvance(x, next, Repeated));
    assert s1.attempt == Some(a.(at := Rereading));
    var s2 := Step(s1, DoAdvance(x, next, Given));
    StepKeepsInv(s1, DoAdvance(x, next, Given));
    assert s2.attempt == Some(a.(at := Landing(a.entry.value, false)));
    LandingLands(s2, a.(at := Landing(a.entry.value, false)), DoAdvance(x, next, Given));
  }

  // ---- A retry that is left alone finishes -------------------------------------------------------------------------

  lemma {:induction false} SomeFree(taken: set<DocEntry>) returns (d: DocEntry)
    ensures forall x :: x in taken ==> x < d
    decreases |taken|
  {
    d := 0;
    if x :| x in taken {
      d := SomeFree(taken - {x});
      if d <= x { d := x + 1; }
      assert forall y :: y in taken ==> y == x || y in taken - {x};
    }
  }

  lemma RunOne(s: System, actions: seq<Action>, a: Action)
    ensures Run(s, actions + [a]) == Step(Run(s, actions), a)
  {
    assert (actions + [a])[..|actions|] == actions;
  }

  ghost predicate Recorded(u: System, c: Company, k: Key) {
    && u.row.status.Quoted? && u.row.company == Some(c) && u.row.docEntry.Some? && u.attempt.None?
    && Carries(u.stores, c, u.row.docEntry.value, k)
  }

  /** An attempt that nothing disturbs. */
  ghost predicate Alone(s: System, a: Attempt) {
    s.attempt == Some(a) && a.company == Some(s.served) && s.row.status.Workable?
  }

  /** The attempt's own steps, each answered. */
  predicate Advances(more: seq<Action>) {
    forall i | 0 <= i < |more| :: more[i].DoAdvance? && more[i].answer.Given?
  }

  lemma LandingLands(s: System, a: Attempt, step: Action)
    requires Inv(s) && Alone(s, a) && a.at.Landing? && step.DoAdvance?
    ensures Recorded(Step(s, step), s.served, a.id) && Step(s, step).stores == s.stores
  {
  }

  lemma FoundLands(s: System, a: Attempt, e: DocEntry)
    requires Inv(s) && Alone(s, a) && a.at.Searching? && Matches(a, StoreOf(s.stores, s.served), e)
    ensures var u := Step(Step(s, DoAdvance(e, 0, Given)), DoAdvance(e, 0, Given));
            Recorded(u, s.served, a.id) && u.stores == s.stores
  {
    var step := DoAdvance(e, 0, Given);
    StepKeepsInv(s, step);
    LandingLands(Step(s, step), a.(at := Landing(e, true)), step);
  }

  lemma CreatedLands(s: System, a: Attempt, d: DocEntry)
    requires Inv(s) && Alone(s, a) && a.at.Searching? && d !in StoreOf(s.stores, s.served)
    requires forall e :: !Matches(a, StoreOf(s.stores, s.served), e)
    ensures var step := DoAdvance(d, 0, Given); Recorded(Step(Step(Step(s, step), step), step), s.served, a.id)
  {
    var step := DoAdvance(d, 0, Given);
    StepKeepsInv(s, step);
    var s1 := Step(s, step);
    assert s1 == Go(s, a, Creating);
    StepKeepsInv(s1, step);
    LandingLands(Step(s1, step), a.(at := Landing(d, true)), step);
  }

  lemma SearchLands(s: System, a: Attempt) returns (more: seq<Action>)
    requires Inv(s) && Alone(s, a) && a.at.Searching?
    ensures Recorded(Run(s, more), s.served, a.id) && Advances(more)
    ensures (exists e :: Carries(s.stores, s.served, e, a.id) && a.id.replaced != Some(e)) ==>
        Run(s, more).stores == s.stores
  {
    var store := StoreOf(s.stores, s.served);
    if e :| Matches(a, store, e) {
      FoundLands(s, a, e);
      more := TwoMore(s, DoAdvance(e, 0, Given));
    } else {
      var d := SomeFree(store.Keys);
      CreatedLands(s, a, d);
      more := TwoMore(s, DoAdvance(d, 0, Given));
      RunOne(s, more, DoAdvance(d, 0, Given));
      more := more + [DoAdvance(d, 0, Given)];
      forall e | Carries(s.stores, s.served, e, a.id)
        ensures a.id.replaced == Some(e)
      {
        assert !Matches(a, store, e);
      }
    }
  }

  lemma TwoMore(s: System, step: Action) returns (more: seq<Action>)
    ensures Run(s, more) == Step(Step(s, step), step) && more == [step, step]
  {
    RunOne(s, [], step);
    RunOne(s, [] + [step], step);
    more := [] + [step] + [step];
  }

  lemma {:induction false} RunOn(s: System, first: seq<Action>, more: seq<Action>)
    ensures Run(s, first + more) == Run(Run(s, first), more)
  {
    if more == [] {
      assert first + more == first;
    } else {
      RunOn(s, first, more[..|more| - 1]);
      assert (first + more)[..|first + more| - 1] == first + more[..|more| - 1];
    }
  }

  /** The modify path, or the way to the search. */
  lemma ReadLands(s: System, a: Attempt) returns (more: seq<Action>)
    requires Inv(s) && RowNames(s) && Alone(s, a) && a.at.Reading?
    ensures Recorded(Run(s, more), s.served, a.id) && Advances(more)
    ensures (exists e :: Carries(s.stores, s.served, e, a.id) && a.id.replaced != Some(e)) ==>
              StoreOf(Run(s, more).stores, s.served).Keys == StoreOf(s.stores, s.served).Keys
  {
    var step := DoAdvance(0, 0, Given);
    var d := a.entry.value;
    var doc := StoreOf(s.stores, s.served)[d];
    StepKeepsInv(s, step);
    RunOne(s, [], step);
    assert Run(s, [step]) == Step(s, step) by { assert [] + [step] == [step]; }
    if !doc.open {
      var rest := SearchLands(Step(s, step), a.(at := Searching));
      RunOn(s, [step], rest);
      more := [step] + rest;
    } else if doc.key == Some(a.id) {
      LandingLands(Step(s, step), a.(at := Landing(d, false)), step);
      more := TwoMore(s, step);
    } else {
      var s1 := Step(s, step);
      assert s1 == Go(s, a, Patching(doc.etag));
      StepKeepsInv(s1, step);
      LandingLands(Step(s1, step), a.(at := Landing(d, false)), step);
      more := TwoMore(s, step);
      RunOne(s, more, step);
      more := more + [step];
      assert StoreOf(Run(s, more).stores, s.served).Keys == StoreOf(s.stores, s.served).Keys;
    }
  }

  /**
   From every reachable state in which no attempt is under way, a project that staff may quote and a company
   Confire has adopted, one undisturbed attempt records a quotation that carries the command id. It adds no
   document when an earlier attempt already created that quotation. An open quotation of the project is itself the one
   recorded, and nothing else in SAP changes; beside a closed one, or a first time, another is, and no document there
   was changes.
   */
  lemma RetryLands(s0: System, actions: seq<Action>) returns (more: seq<Action>)
    requires Initial(s0)
    requires var s := Run(s0, actions);
             s.attempt.None? && s.row.status.Workable? && s.row.picks.Some? && s.tenant == Some(s.served)
    ensures var s := Run(s0, actions); var u := Run(s, more);
            var here := s.row.docEntry.Some? && s.row.company == Some(s.served);
            var id := Key(s.row.picks.value, if here then s.row.docEntry else None);
            && |more| > 0 && more[0] == DoBegin(id) && Advances(more[1..])
            && Recorded(u, s.served, id)
            && ((exists e :: Carries(s.stores, s.served, e, id) && id.replaced != Some(e)) ==>
                  StoreOf(u.stores, s.served).Keys == StoreOf(s.stores, s.served).Keys)
            && (here && StandsOpen(s.stores, s.served, s.row.docEntry.value) ==>
                  && u.row.docEntry == s.row.docEntry
                  && OnlyDocChanged(s.stores, u.stores, s.served, s.row.docEntry.value))
            && (here && !StandsOpen(s.stores, s.served, s.row.docEntry.value) ==> u.row.docEntry != s.row.docEntry)
            && (!here || !StandsOpen(s.stores, s.served, s.row.docEntry.value) ==> AllUnchanged(s.stores, u.stores))
  {
    var s := Run(s0, actions);
    FromStart(s0, actions);
    var here := QuotationIn(s.row, s.tenant);
    var id := CommandId(s.row, here);
    var begin := DoBegin(id);
    StepKeepsInv(s, begin);
    RunOne(s, [], begin);
    assert Run(s, [begin]) == Step(s, begin) by { assert [] + [begin] == [begin]; }
    var u := Step(s, begin);
    var rest;
    if here { rest := ReadLands(u, u.attempt.value); } else { rest := SearchLands(u, u.attempt.value); }
    RunOn(s, [begin], rest);
    more := [begin] + rest;
    assert more[1..] == rest;
    if here {
      var d := s.row.docEntry.value;
      if StandsOpen(s.stores, s.served, d) {
        OpenIsModifiedInPlace(s, s.served, d, rest);
      } else {
        ClosedIsReplaced(s0, actions, s.served, d, rest);
      }
    } else {
      FirstQuoteAddsOnly(s0, actions, id, rest);
    }
  }

  lemma FirstQuoteAddsOnly(s0: System, actions: seq<Action>, id: Key, more: seq<Action>)
    requires Initial(s0)
    requires var s := Run(s0, actions);
             s.attempt.None? && Step(s, DoBegin(id)).attempt.Some? && !QuotationIn(s.row, s.tenant)
    requires forall i | 0 <= i < |more| :: Ours(more[i])
    ensures var s := Run(s0, actions); AllUnchanged(s.stores, Run(Step(s, DoBegin(id)), more).stores)
  {
    var s := Run(s0, actions);
    var begun := actions + [DoBegin(id)];
    RunOne(s0, actions, DoBegin(id));
    AttemptStaysInItsCompany(s0, begun, more);
    var u := Run(s0, begun);
    forall x, e | e in StoreOf(s.stores, x) ensures Unchanged(s.stores, Run(u, more).stores, x, e) {
      assert KeptOrOwn(u.stores, u.attempt.value, Run(u, more).stores, x, e);
    }
  }

  // ---- An answer that is lost ----------------------------------------------------------------------------------

  /** The write attempt `a` is about to make is one SAP applies, to document `d`. */
  ghost predicate Applies(s: System, a: Attempt, d: DocEntry) {
    var store := StoreOf(s.stores, s.served);
    || (a.at.Patching? && a.entry == Some(d) && d in store && store[d].open && store[d].etag == a.at.etag)
    || (a.at.Creating? && d !in store)
  }

  /** The row is still the one attempt `a` read, and a quotation it replaces is still closed. */
  ghost predicate StillReads(s: System, a: Attempt) {
    && (a.here && a.at.Creating? ==> a.entry.Some? && !StandsOpen(s.stores, s.served, a.entry.value))
    && s.tenant == Some(s.served) && s.row.picks == Some(a.id.picks)
    && (a.here <==> s.row.docEntry.Some? && s.row.company == Some(s.served))
  }

  lemma FoundAgain(s: System, a: Attempt, d: DocEntry) returns (more: seq<Action>)
    requires Inv(s) && Alone(s, a) && a.at.Reading? && a.entry == Some(d)
    requires Carries(s.stores, s.served, d, a.id) && StoreOf(s.stores, s.served)[d].open
    ensures Advances(more)
    ensures Recorded(Run(s, more), s.served, a.id) && Run(s, more).row.docEntry == Some(d)
    ensures Run(s, more).stores == s.stores
  {
    var step := DoAdvance(d, 0, Given);
    StepKeepsInv(s, step);
    LandingLands(Step(s, step), a.(at := Landing(d, false)), step);
    more := TwoMore(s, step);
  }

  lemma SearchedAgain(s: System, a: Attempt, d: DocEntry) returns (more: seq<Action>)
    requires Inv(s) && Alone(s, a) && a.at.Searching? && Matches(a, StoreOf(s.stores, s.served), d)
    ensures Advances(more)
    ensures Recorded(Run(s, more), s.served, a.id) && Run(s, more).row.docEntry == Some(d)
    ensures Run(s, more).stores == s.stores
  {
    FoundLands(s, a, d);
    more := TwoMore(s, DoAdvance(d, 0, Given));
  }

  /** The quotation that was created beside a closed one. */
  lemma ReplacementFoundAgain(s: System, a: Attempt, d: DocEntry) returns (more: seq<Action>)
    requires Inv(s) && RowNames(s) && Alone(s, a) && a.at.Reading? && !StandsOpen(s.stores, s.served, a.entry.value)
    requires Matches(a, StoreOf(s.stores, s.served), d)
    ensures Advances(more)
    ensures Recorded(Run(s, more), s.served, a.id) && Run(s, more).row.docEntry == Some(d)
    ensures Run(s, more).stores == s.stores
  {
    var step := DoAdvance(d, 0, Given);
    var read := Step(s, step);
    assert read == Go(s, a, Searching);
    StepKeepsInv(s, step);
    var rest := SearchedAgain(read, a.(at := Searching), d);
    RunOne(s, [], step);
    assert [] + [step] == [step];
    RunOn(s, [step], rest);
    more := [step] + rest;
  }

  /** The state a lost write leaves: the document is there with the id, the attempt is over, the row as it was. */
  lemma LostLeaves(s: System, a: Attempt, d: DocEntry, next: nat)
    requires Inv(s) && Alone(s, a) && Applies(s, a, d)
    ensures var lost := Step(s, DoAdvance(d, next, Lost));
            && lost == s.(attempt := None, stores := lost.stores) && Inv(lost)
            && Carries(lost.stores, s.served, d, a.id) && StandsOpen(lost.stores, s.served, d)
            && (forall e ::
                  e != d && e in StoreOf(s.stores, s.served) ==> Unchanged(s.stores, lost.stores, s.served, e))
  {
    StepKeepsInv(s, DoAdvance(d, next, Lost));
  }

  /**
   A write that SAP applied and whose answer never came ends the attempt and records nothing. The next attempt with the
   same picks, left alone, finds that very document and records it, and writes nothing again.
   */
  lemma LostWriteIsFound(s0: System, actions: seq<Action>, d: DocEntry, next: nat) returns (more: seq<Action>)
    requires Initial(s0)
    requires var s := Run(s0, actions);
             && s.attempt.Some? && Alone(s, s.attempt.value) && StillReads(s, s.attempt.value)
             && Applies(s, s.attempt.value, d)
    ensures var s := Run(s0, actions); var a := s.attempt.value;
            var lost := Step(s, DoAdvance(d, next, Lost)); var u := Run(lost, more);
            && lost.attempt.None? && lost.row == s.row && Carries(lost.stores, s.served, d, a.id)
            && |more| > 0 && more[0] == DoBegin(a.id) && Advances(more[1..])
            && Recorded(u, s.served, a.id) && u.row.docEntry == Some(d) && u.stores == lost.stores
  {
    var s := Run(s0, actions);
    var a := s.attempt.value;
    FromStart(s0, actions);
    LostLeaves(s, a, d, next);
    var lost := Step(s, DoAdvance(d, next, Lost));
    var begun := Step(lost, DoBegin(a.id));
    StepKeepsInv(lost, DoBegin(a.id));
    var b := begun.attempt.value;
    var rest;
    if !a.here { rest := SearchedAgain(begun, b, d); }
    else if a.at.Patching? { rest := FoundAgain(begun, b, d); }
    else { rest := ReplacementFoundAgain(begun, b, d); }
    RunOne(lost, [], DoBegin(a.id));
    assert [] + [DoBegin(a.id)] == [DoBegin(a.id)];
    RunOn(lost, [DoBegin(a.id)], rest);
    more := [DoBegin(a.id)] + rest;
    assert more[1..] == rest;
  }

  /** A project that moved on meanwhile records nothing: the document stays in SAP for the next attempt to find. */
  lemma MovedOnIsNotRecorded(s: System, a: Attempt, step: Action)
    requires s.attempt == Some(a) && a.at.Landing? && step.DoAdvance? && !s.row.status.Workable?
    ensures Step(s, step) == s.(attempt := None)
  {
  }

  /** A quotation that was recorded in the company at hand is answered from the row, and no attempt begins on it. */
  lemma RecordedIsAnswered(u: System, c: Company, k: Key, id: Key)
    requires Recorded(u, c, k)
    ensures u.tenant == Some(c) ==> Already(u) == u.row.docEntry
    ensures u.tenant != Some(c) ==> Already(u).None?
    ensures Step(u, DoBegin(id)) == u
  {
  }

  // ---- Adoption -------------------------------------------------------------------------------------------------

  /** The company the agent is in after some steps. */
  function ServedAfter(served: Company, more: seq<Action>): Company {
    if more == [] then served
    else if more[|more| - 1].Serve? then more[|more| - 1].company
    else ServedAfter(served, more[..|more| - 1])
  }

  /** The companies adopted in some steps, in order. */
  function Adopted(served: Company, more: seq<Action>): seq<Company> {
    if more == [] then []
    else
      var before := more[..|more| - 1];
      Adopted(served, before) + (if more[|more| - 1].DoAdopt? then [ServedAfter(served, before)] else [])
  }

  /** The tenant follows the agent, and a quotation from before companies were recorded keeps the first one adopted. */
  ghost predicate Follows(s: System, u: System, served: Company, adopted: seq<Company>) {
    && u.served == served
    && u.tenant == (if adopted == [] then s.tenant else Some(adopted[|adopted| - 1]))
    && u.row.docEntry == s.row.docEntry
    && u.row.company == (if s.row.company.Some? || s.row.docEntry.None? || adopted == [] then s.row.company
                         else Some(adopted[0]))
    && u.attempt.None?
  }

  /**
   Between attempts, whatever else happens: the tenant's company is the last one adopted; a row that names a quotation
   and no company gets the first one adopted and keeps it; any other row is never touched.
   */
  lemma {:induction false} AdoptionFollowsTheAgent(s: System, more: seq<Action>)
    requires s.attempt.None? && s.tenant.None? && forall i | 0 <= i < |more| :: !more[i].DoBegin?
    ensures Follows(s, Run(s, more), ServedAfter(s.served, more), Adopted(s.served, more))
  {
    if more != [] {
      AdoptionFollowsTheAgent(s, more[..|more| - 1]);
    }
  }

  /** A call the agent refuses, because it serves another company, ends the attempt, writes nothing, and is adopted. */
  lemma RefusedIsAdopted(s: System, a: Attempt, step: Action)
    requires s.attempt == Some(a) && !a.at.Landing? && a.company != Some(s.served) && step.DoAdvance?
    requires a.at.Reading? || a.at.Patching? || a.at.Rereading? ==> a.entry.Some?
    ensures var u := Step(s, step);
            u.attempt.None? && u.stores == s.stores && u.tenant == Some(s.served) && u.row.docEntry == s.row.docEntry
  {
  }

  /** What the world may do between two steps: any move of the agent, of SAP's documents, of the project's picks. */
  lemma WorldMovesFreely(s: System, c: Company, d: DocEntry, open: bool, next: nat, picks: Option<nat>, status: Status)
    ensures Step(s, Serve(c)) == s.(served := c)
    ensures !status.Quoted? ==> Step(s, DoEditRow(picks, status)).row == s.row.(picks := picks, status := status)
    ensures d !in StoreOf(s.stores, c) ==>
              var u := Step(s, DoNewDoc(c, d, next));
              d in StoreOf(u.stores, c) && StoreOf(u.stores, c)[d] == Doc(None, true, next)
    ensures d in StoreOf(s.stores, c) ==>
              var u := Step(s, DoEditDoc(c, d, open, next));
              d in StoreOf(u.stores, c)
              && StoreOf(u.stores, c)[d] == StoreOf(s.stores, c)[d].(open := open, etag := next)
  {
  }
}
