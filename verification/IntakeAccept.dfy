/** Accepting requests under idempotency keys: what counts as the same request, and any
    number of clients accepting at once. */
module IntakeAccept {
  import opened Domain
  import opened TemplateRendering
  import Outbox
  import PlanAssembly

  // ---- What counts as the same request ----

  datatype Command = Command(
    projectId: nat,
    recipientId: Option<string>,
    addresses: map<Channel, string>,
    channels: Option<seq<Channel>>,
    category: Option<Category>,
    topicSlug: Option<string>,
    templateSlug: Option<string>,
    variables: Option<Variables>,
    content: Option<Content>,
    groupKey: Option<string>,
    sendAt: Option<PlanAssembly.Timestamp>,
    key: Option<string>)

  /** What the fingerprint is taken of. */
  datatype Document = Document(
    recipientId: Option<string>,
    addresses: map<Channel, string>,
    channels: Option<seq<Channel>>,
    category: Option<Category>,
    topicSlug: Option<string>,
    templateSlug: Option<string>,
    variables: Option<Variables>,
    content: Option<Content>,
    groupKey: Option<string>,
    sendAt: Option<int>)

  /** The position of a channel in the alphabetical order of the stored spellings. */
  function Rank(c: Channel): (r: nat)
    ensures r < |PlanAssembly.ALPHABETICAL| && PlanAssembly.ALPHABETICAL[r] == c
  {
    match c case Email => 0 case InApp => 1 case Push => 2 case Sms => 3
  }

  /** The instant itself, whatever zone it is given in. */
  function Instant(t: Option<PlanAssembly.Timestamp>): Option<int> {
    if t.Some? then Some(t.value.at) else None
  }

  function Insert(c: Channel, sorted: seq<Channel>): seq<Channel> {
    if sorted == [] || Rank(c) <= Rank(sorted[0]) then [c] + sorted else [sorted[0]] + Insert(c, sorted[1..])
  }

  /** Channels in the alphabetical order of their stored spelling, repetitions kept. */
  function Sort(s: seq<Channel>): seq<Channel> {
    if s == [] then [] else Insert(s[0], Sort(s[1..]))
  }

  /** `normal` gives the canonical form of an address on a channel. */
  function DocumentOf(cmd: Command, normal: (Channel, string) -> string): Document {
    Document(cmd.recipientId, map c | c in cmd.addresses :: normal(c, cmd.addresses[c]),
             if cmd.channels.Some? then Some(Sort(cmd.channels.value)) else None,
             cmd.category, cmd.topicSlug, cmd.templateSlug, cmd.variables, cmd.content, cmd.groupKey,
             Instant(cmd.sendAt))
  }

  predicate Ordered(s: seq<Channel>) {
    |s| <= 1 || (Rank(s[0]) <= Rank(s[1]) && Ordered(s[1..]))
  }

  lemma {:induction false} InsertKeepsOrder(c: Channel, s: seq<Channel>)
    requires Ordered(s)
    ensures Ordered(Insert(c, s)) && (Insert(c, s)[0] == c || (s != [] && Insert(c, s)[0] == s[0]))
  {
    if s == [] || Rank(c) <= Rank(s[0]) {
      assert Insert(c, s)[1..] == s;
    } else {
      InsertKeepsOrder(c, s[1..]);
      assert Insert(c, s)[1..] == Insert(c, s[1..]);
    }
  }

  lemma {:induction false} InsertAddsOne(c: Channel, s: seq<Channel>)
    ensures multiset(Insert(c, s)) == multiset{c} + multiset(s)
  {
    if s == [] || Rank(c) <= Rank(s[0]) {
    } else {
      InsertAddsOne(c, s[1..]);
      assert s == [s[0]] + s[1..];
    }
  }

  lemma {:induction false} SortSorts(s: seq<Channel>)
    ensures Ordered(Sort(s)) && multiset(Sort(s)) == multiset(s)
  {
    if s == [] {
    } else {
      SortSorts(s[1..]);
      InsertKeepsOrder(s[0], Sort(s[1..]));
      InsertAddsOne(s[0], Sort(s[1..]));
      assert s == [s[0]] + s[1..];
    }
  }

  lemma {:induction false} HeadIsLeast(s: seq<Channel>, c: Channel)
    requires Ordered(s) && c in multiset(s)
    ensures Rank(s[0]) <= Rank(c)
  {
    assert s == [s[0]] + s[1..];
    if c == s[0] {
    } else {
      HeadIsLeast(s[1..], c);
    }
  }

  lemma {:induction false} OneOrder(a: seq<Channel>, b: seq<Channel>)
    requires Ordered(a) && Ordered(b) && multiset(a) == multiset(b)
    ensures a == b
    decreases |a|
  {
    if a == [] {
      assert multiset(b) == multiset{};
    } else {
      assert a == [a[0]] + a[1..];
      HeadIsLeast(b, a[0]);
      assert b == [b[0]] + b[1..];
      HeadIsLeast(a, b[0]);
      TailsHaveTheSame(a, b);
      OneOrder(a[1..], b[1..]);
    }
  }

  lemma TailsHaveTheSame(a: seq<Channel>, b: seq<Channel>)
    requires a != [] && b != [] && a[0] == b[0] && multiset(a) == multiset(b)
    ensures multiset(a[1..]) == multiset(b[1..])
  {
    assert a == [a[0]] + a[1..] && b == [b[0]] + b[1..];
    assert multiset(a[1..]) == multiset(a) - multiset{a[0]};
  }

  /** Two requests have the same document exactly when they differ in nothing but the
      project, the key, the order of the channels, the spelling of the addresses and the
      zone of the send time. */
  lemma SameDocument(a: Command, b: Command, normal: (Channel, string) -> string)
    ensures DocumentOf(a, normal) == DocumentOf(b, normal) <==>
              && (a.recipientId, a.category, a.topicSlug, a.templateSlug)
                 == (b.recipientId, b.category, b.topicSlug, b.templateSlug)
              && (a.variables, a.content, a.groupKey) == (b.variables, b.content, b.groupKey)
              && Instant(a.sendAt) == Instant(b.sendAt)
              && a.addresses.Keys == b.addresses.Keys
              && (forall c :: c in a.addresses ==> normal(c, a.addresses[c]) == normal(c, b.addresses[c]))
              && (match (a.channels, b.channels)
                  case (Some(s), Some(t)) => multiset(s) == multiset(t)
                  case (s, t) => s == t)
  {
    var da, db := DocumentOf(a, normal), DocumentOf(b, normal);
    assert da.addresses.Keys == a.addresses.Keys && db.addresses.Keys == b.addresses.Keys;
    if a.channels.Some? && b.channels.Some? {
      SortSorts(a.channels.value);
      SortSorts(b.channels.value);
      if multiset(a.channels.value) == multiset(b.channels.value) {
        OneOrder(Sort(a.channels.value), Sort(b.channels.value));
      }
    }
  }

  // ---- The stored intakes ----

  datatype Request = Request(projectId: nat, key: Option<string>, document: Document)

  /** An accepted request; each has its own transaction id, here the same number. */
  datatype Row = Row(id: nat, request: Request)

  /** The index on project and key: requests without a key never collide. */
  predicate Collide(a: Request, b: Request) {
    a.key.Some? && a.key == b.key && a.projectId == b.projectId
  }

  function Find(rows: seq<Row>, r: Request): Option<Row> {
    if rows == [] then None
    else if Collide(r, rows[0].request) then Some(rows[0])
    else Find(rows[1..], r)
  }

  lemma {:induction false} FindsTheRow(rows: seq<Row>, r: Request)
    ensures Find(rows, r).Some? ==> Find(rows, r).value in rows && Collide(r, Find(rows, r).value.request)
    ensures Find(rows, r).None? ==> forall row :: row in rows ==> !Collide(r, row.request)
  {
    if rows == [] {
    } else {
      FindsTheRow(rows[1..], r);
      assert rows == [rows[0]] + rows[1..];
    }
  }

  datatype Answer = Accepted(transactionId: nat, replayed: bool) | Conflict | Refused | AlreadyExists

  /** Answer from an earlier acceptance under the same key, if there is one. */
  function Replay(rows: seq<Row>, r: Request): Option<Answer> {
    if r.key.None? then None else
    match Find(rows, r)
    case None => None
    case Some(row) => Some(if row.request.document != r.document then Conflict else Accepted(row.id, true))
  }

  function Announce(row: Row): Outbox.Entry {
    Outbox.IntakeEntry(row.id, row.request.document.category == Some(Critical))
  }

  function Announced(rows: seq<Row>): seq<Outbox.Entry> {
    seq(|rows|, i requires 0 <= i < |rows| => Announce(rows[i]))
  }

  // ---- Any number of clients ----

  /** Where one client's acceptance stands, inside its transaction. */
  datatype Phase =
    | Idle
    | Looked(request: Request)
    | Inserted(row: Row)
    | Enqueued(row: Row)
    | Lost(request: Request)

  datatype Response = Response(request: Request, answer: Answer)

  /** `rows` and `outbox` are what is committed; `responses` what clients were answered. */
  datatype World = World(
    rows: seq<Row>,
    outbox: seq<Outbox.Entry>,
    nextId: nat,
    phases: map<nat, Phase>,
    responses: seq<Response>)

  datatype Step =
    | LookUp(client: nat, request: Request)
    | Refuse(client: nat)
    | InsertRow(client: nat)
    | Enqueue(client: nat)
    | CommitBoth(client: nat, answers: bool)
    | ReplayWinner(client: nat)
    | Abort(client: nat)

  function PhaseOf(w: World, k: nat): Phase {
    if k in w.phases then w.phases[k] else Idle
  }

  function Enter(w: World, k: nat, p: Phase): World {
    w.(phases := w.phases[k := p])
  }

  function Answered(w: World, k: nat, request: Request, answer: Answer): World {
    Enter(w, k, Idle).(responses := w.responses + [Response(request, answer)])
  }

  /** The client has a row that is not committed yet. */
  predicate InFlight(p: Phase) {
    p.Inserted? || p.Enqueued?
  }

  /** Another open transaction holds the key: the insertion has to wait for its end. */
  predicate Blocked(w: World, k: nat, r: Request) {
    exists j :: j in w.phases && j != k && InFlight(w.phases[j]) && Collide(r, w.phases[j].row.request)
  }

  function Next(w: World, s: Step): Option<World> {
    match s
    case LookUp(k, request) =>
      if !PhaseOf(w, k).Idle? then None else
      (match Replay(w.rows, request)
       case Some(answer) => Some(Answered(w, k, request, answer))
       case None => Some(Enter(w, k, Looked(request))))
    case Refuse(k) =>
      (match PhaseOf(w, k)
       case Looked(request) => Some(Answered(w, k, request, Refused))
       case _ => None)
    case InsertRow(k) =>
      (match PhaseOf(w, k)
       case Looked(request) =>
         if Blocked(w, k, request) then None
         else if Find(w.rows, request).Some? then Some(Enter(w, k, Lost(request)))
         else Some(Enter(w, k, Inserted(Row(w.nextId, request))).(nextId := w.nextId + 1))
       case _ => None)
    case Enqueue(k) =>
      (match PhaseOf(w, k)
       case Inserted(row) => Some(Enter(w, k, Enqueued(row)))
       case _ => None)
    case CommitBoth(k, answers) =>
      (match PhaseOf(w, k)
       case Enqueued(row) =>
         var done := Enter(w, k, Idle).(rows := w.rows + [row], outbox := w.outbox + [Announce(row)]);
         Some(if answers then done.(responses := w.responses + [Response(row.request, Accepted(row.id, false))])
               else done)
       case _ => None)
    case ReplayWinner(k) =>
      (match PhaseOf(w, k)
       case Lost(request) =>
         (match Replay(w.rows, request)
          case Some(answer) => Some(Answered(w, k, request, answer))
          case None => Some(Answered(w, k, request, AlreadyExists)))
       case _ => None)
    case Abort(k) => Some(Enter(w, k, Idle))
  }

  predicate Initial(w: World) {
    w.rows == [] && w.outbox == [] && w.phases == map[] && w.responses == []
  }

  ghost predicate Execution(states: seq<World>, steps: seq<Step>) {
    && |states| == |steps| + 1
    && Initial(states[0])
    && forall i :: 0 <= i < |steps| ==> Next(states[i], steps[i]) == Some(states[i + 1])
  }

  // ---- Safety ----

  predicate Apart(a: Row, b: Row) {
    a.id != b.id && !Collide(a.request, b.request)
  }

  /** No two committed rows share an id or a project's key. */
  predicate RowsApart(rows: seq<Row>) {
    forall i, j :: 0 <= i < |rows| && 0 <= j < |rows| && i != j ==> Apart(rows[i], rows[j])
  }

  /** What is known about a client's transaction. */
  ghost predicate PhaseSound(w: World, p: Phase) {
    match p
    case Idle => true
    case Looked(_) => true
    case Inserted(row) => row.id < w.nextId && forall r :: r in w.rows ==> Apart(row, r)
    case Enqueued(row) => row.id < w.nextId && forall r :: r in w.rows ==> Apart(row, r)
    case Lost(request) => request.key.Some? && Find(w.rows, request).Some?
  }

  predicate PhasesApart(p: Phase, q: Phase) {
    InFlight(p) && InFlight(q) ==> Apart(p.row, q.row)
  }

  /** A success names a committed row of the same request; a conflict one of another. */
  ghost predicate AnswerSound(w: World, r: Response) {
    match r.answer
    case Accepted(id, replayed) =>
      && (exists row :: row in w.rows && row.id == id && row.request == r.request)
      && (r.request.key.None? ==> !replayed)
    case Conflict =>
      exists row :: row in w.rows && Collide(r.request, row.request) && row.request.document != r.request.document
    case Refused => true
    case AlreadyExists => false
  }

  predicate Fresh(r: Response) {
    r.answer.Accepted? && !r.answer.replayed
  }

  /** At most one success per row is not a replay. */
  predicate FreshOnce(responses: seq<Response>) {
    forall i, j :: 0 <= i < j < |responses| && Fresh(responses[i]) && Fresh(responses[j]) ==>
      responses[i].answer.transactionId != responses[j].answer.transactionId
  }

  ghost predicate Sound(w: World) {
    && RowsApart(w.rows)
    && (forall r :: r in w.rows ==> r.id < w.nextId)
    && w.outbox == Announced(w.rows)
    && (forall k: nat :: PhaseSound(w, PhaseOf(w, k)))
    && (forall j: nat, k: nat :: j != k ==> PhasesApart(PhaseOf(w, j), PhaseOf(w, k)))
    && (forall r :: r in w.responses ==> AnswerSound(w, r))
    && FreshOnce(w.responses)
  }

  predicate Touches(s: Step, k: nat) {
    s.client == k
  }

  lemma OthersKeepTheirPhase(w: World, s: Step, k: nat)
    requires Next(w, s).Some? && !Touches(s, k)
    ensures PhaseOf(Next(w, s).value, k) == PhaseOf(w, k)
  {
  }

  /** A step adds at most one row: the one its client had in flight. */
  lemma RowsGrow(w: World, s: Step)
    requires Next(w, s).Some?
    ensures var v := Next(w, s).value;
            && (|| (v.rows == w.rows && v.outbox == w.outbox)
                || (InFlight(PhaseOf(w, s.client)) && s.CommitBoth?
                    && v.rows == w.rows + [PhaseOf(w, s.client).row]
                    && v.outbox == w.outbox + [Announce(PhaseOf(w, s.client).row)]))
            && w.nextId <= v.nextId
  {
  }

  lemma {:induction false} FindGrows(rows: seq<Row>, more: seq<Row>, r: Request)
    requires Find(rows, r).Some?
    ensures Find(rows + more, r) == Find(rows, r)
  {
    if Collide(r, rows[0].request) {
    } else {
      assert (rows + more)[1..] == rows[1..] + more;
      FindGrows(rows[1..], more, r);
    }
  }

  lemma PhaseStaysSound(w: World, s: Step, k: nat)
    requires Sound(w) && Next(w, s).Some?
    ensures PhaseSound(Next(w, s).value, PhaseOf(Next(w, s).value, k))
  {
    var v := Next(w, s).value;
    RowsGrow(w, s);
    assert PhaseSound(w, PhaseOf(w, k));
    if !Touches(s, k) {
      OthersKeepTheirPhase(w, s, k);
      assert PhasesApart(PhaseOf(w, k), PhaseOf(w, s.client));
      if PhaseOf(w, k).Lost? {
        FindGrows(w.rows, v.rows[|w.rows|..], PhaseOf(w, k).request);
        assert v.rows == w.rows + v.rows[|w.rows|..];
      }
    } else if s.InsertRow? {
      FindsTheRow(w.rows, PhaseOf(w, k).request);
    }
  }

  lemma PhasesStayApart(w: World, s: Step, j: nat, k: nat)
    requires Sound(w) && Next(w, s).Some? && j != k
    ensures PhasesApart(PhaseOf(Next(w, s).value, j), PhaseOf(Next(w, s).value, k))
  {
    assert PhasesApart(PhaseOf(w, j), PhaseOf(w, k));
    assert PhaseSound(w, PhaseOf(w, j)) && PhaseSound(w, PhaseOf(w, k));
    if !Touches(s, j) {
      OthersKeepTheirPhase(w, s, j);
    }
    if !Touches(s, k) {
      OthersKeepTheirPhase(w, s, k);
    }
  }

  lemma RowsStayApart(w: World, s: Step)
    requires Sound(w) && Next(w, s).Some?
    ensures var v := Next(w, s).value;
            RowsApart(v.rows) && v.outbox == Announced(v.rows) && forall r :: r in v.rows ==> r.id < v.nextId
  {
    RowsGrow(w, s);
    assert PhaseSound(w, PhaseOf(w, s.client));
    var v := Next(w, s).value;
    if v.rows != w.rows {
      assert forall i :: 0 <= i < |w.rows| ==> Apart(PhaseOf(w, s.client).row, w.rows[i]);
    }
  }

  lemma AnswersStaySound(w: World, s: Step, r: Response)
    requires Sound(w) && Next(w, s).Some? && r in Next(w, s).value.responses
    ensures AnswerSound(Next(w, s).value, r)
  {
    var v := Next(w, s).value;
    RowsGrow(w, s);
    assert forall row :: row in w.rows ==> row in v.rows;
    if r in w.responses {
      assert AnswerSound(w, r);
    } else {
      assert PhaseSound(w, PhaseOf(w, s.client));
      FindsTheRow(w.rows, r.request);
      if s.CommitBoth? {
        assert PhaseOf(w, s.client).row in v.rows;
      }
    }
  }

  lemma FreshStaysOnce(w: World, s: Step)
    requires Sound(w) && Next(w, s).Some?
    ensures FreshOnce(Next(w, s).value.responses)
  {
    if s.CommitBoth? {
      assert PhaseSound(w, PhaseOf(w, s.client));
      forall r | r in w.responses && Fresh(r) ensures r.answer.transactionId != PhaseOf(w, s.client).row.id {
        assert AnswerSound(w, r);
      }
    }
  }

  lemma SoundStep(w: World, s: Step)
    requires Sound(w) && Next(w, s).Some?
    ensures Sound(Next(w, s).value)
  {
    var v := Next(w, s).value;
    RowsStayApart(w, s);
    FreshStaysOnce(w, s);
    forall k: nat ensures PhaseSound(v, PhaseOf(v, k)) {
      PhaseStaysSound(w, s, k);
    }
    forall j: nat, k: nat | j != k ensures PhasesApart(PhaseOf(v, j), PhaseOf(v, k)) {
      PhasesStayApart(w, s, j, k);
    }
    forall r | r in v.responses ensures AnswerSound(v, r) {
      AnswersStaySound(w, s, r);
    }
  }

  lemma {:induction false} AlwaysSound(states: seq<World>, steps: seq<Step>, i: nat)
    requires Execution(states, steps) && i < |states|
    ensures Sound(states[i])
  {
    if i == 0 {
      forall k: nat ensures PhaseOf(states[0], k).Idle? {}
    } else {
      AlwaysSound(states, steps, i - 1);
      assert Next(states[i - 1], steps[i - 1]) == Some(states[i]);
      SoundStep(states[i - 1], steps[i - 1]);
    }
  }

  /** In every interleaving, a project's key has at most one intake row and at most one
      intake message in the outbox, and every row has its message and every message its row. */
  lemma OneIntakePerKey(states: seq<World>, steps: seq<Step>, i: nat, a: nat, b: nat)
    requires Execution(states, steps) && i < |states|
    requires a < |states[i].rows| && b < |states[i].rows|
    requires Collide(states[i].rows[a].request, states[i].rows[b].request)
    ensures a == b
    ensures states[i].outbox == Announced(states[i].rows)
    ensures forall m ::
              0 <= m < |states[i].outbox| && states[i].outbox[m].aggregateId == states[i].rows[a].id ==> m == a
  {
    AlwaysSound(states, steps, i);
  }

  /** In every interleaving, all successes under one key name the same transaction and were
      asked for the same document, and at most one of them is not marked as replayed. */
  lemma SuccessesShareOneTransaction(states: seq<World>, steps: seq<Step>, i: nat, a: nat, b: nat)
    requires Execution(states, steps) && i < |states|
    requires a < b < |states[i].responses|
    requires var (r, s) := (states[i].responses[a], states[i].responses[b]);
             r.answer.Accepted? && s.answer.Accepted? && Collide(r.request, s.request)
    ensures var (r, s) := (states[i].responses[a], states[i].responses[b]);
            && r.answer.transactionId == s.answer.transactionId && r.request.document == s.request.document
            && (r.answer.replayed || s.answer.replayed)
  {
    AlwaysSound(states, steps, i);
    var w := states[i];
    var r, s := w.responses[a], w.responses[b];
    assert AnswerSound(w, r) && AnswerSound(w, s);
    var x :| x in w.rows && x.id == r.answer.transactionId && x.request == r.request;
    var y :| y in w.rows && y.id == s.answer.transactionId && y.request == s.request;
    var m: nat :| m < |w.rows| && w.rows[m] == x;
    var n: nat :| n < |w.rows| && w.rows[n] == y;
    assert m == n;
  }

  /** Every answer is true to what is stored: whoever loses the race for a key is answered
      from the winner's row and never with an error, a conflict means that another document
      is stored under the key, and a request without a key is never a replay. */
  lemma AnswersAreTrue(states: seq<World>, steps: seq<Step>, i: nat, r: Response)
    requires Execution(states, steps) && i < |states| && r in states[i].responses
    ensures !r.answer.AlreadyExists?
    ensures r.answer.Conflict? ==>
              exists row ::
                row in states[i].rows && Collide(r.request, row.request) && row.request.document != r.request.document
    ensures r.answer.Accepted? ==>
              exists row :: row in states[i].rows && row.id == r.answer.transactionId && row.request == r.request
    ensures r.answer.Accepted? && r.request.key.None? ==> !r.answer.replayed
  {
    AlwaysSound(states, steps, i);
    assert AnswerSound(states[i], r);
  }

  /** A success is not marked as replayed exactly when it is the commit that inserted its
      row. */
  lemma OnlyTheInsertionIsFresh(w: World, s: Step)
    requires Next(w, s).Some? && |Next(w, s).value.responses| > |w.responses|
    ensures var v := Next(w, s).value;
            var r := v.responses[|w.responses|];
            && v.responses == w.responses + [r]
            && (Fresh(r) <==> v.rows != w.rows)
            && (Fresh(r) ==> v.rows == w.rows + [Row(r.answer.transactionId, r.request)])
  {
  }
}
