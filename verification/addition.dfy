/** The enrichment step (internal/addition/addition.go): three lookups, one per
    kind of inferred fact, each run by its own worker that sends at most one
    message (none while its lookup never ends, none when it panics), and a
    merge loop that reads at most three messages and returns on
    the first error.

    Concurrency is replaced by data. What the network, the body read and the
    JSON decoding yield for a URL is given by a `Network`; the interleaving of
    the workers is given by a `schedule`, the order in which they act: their
    messages reach the merge loop, or the nationality worker panics, in that
    order. */
module Addition {
  import opened Wrappers
  import opened Models

  /** The three lookup base URLs of the service configuration. */
  datatype Config = Config(agifyURL: string, genderizeURL: string, nationalizeURL: string)

  /** The enrichment client: only its three base URLs matter. */
  datatype Addition = Addition(agifyURL: string, nationalizeURL: string, genderizeURL: string)

  /** The client built from the configuration: each worker queries the URL
      configured for its own service. */
  function NewAddition(cfg: Config): (add: Addition)
    ensures BaseURL(add, AgeKind) == cfg.agifyURL
    ensures BaseURL(add, GenderKind) == cfg.genderizeURL
    ensures BaseURL(add, NationKind) == cfg.nationalizeURL
  {
    Addition(cfg.agifyURL, cfg.nationalizeURL, cfg.genderizeURL)
  }

  const NameQuery: string := "/?name="

  /** The part of `url` after `base + NameQuery`, when it starts that way. */
  function NameInURL(base: string, url: string): Option<string> {
    var prefix := base + NameQuery;
    if |prefix| <= |url| && url[..|prefix|] == prefix then Some(url[|prefix|..]) else None
  }

  /** The lookup URL: the base, the fixed query prefix, then the name exactly
      as given, with no escaping, so the name can be read back verbatim. */
  function LookupURL(base: string, name: string): (url: string)
    ensures |url| == |base| + |NameQuery| + |name|
    ensures url[..|base|] == base
    ensures url[|base|..|base| + |NameQuery|] == NameQuery
    ensures NameInURL(base, url) == Some(name)
  {
    var url := base + NameQuery + name;
    assert url[..|base + NameQuery|] == base + NameQuery;
    assert url[|base + NameQuery|..] == name;
    url
  }

  /** The three lookup workers. */
  datatype Kind = AgeKind | GenderKind | NationKind

  /** One entry of the nationality service's ranked country list, after
      decoding (only `country_id` is decoded). */
  datatype Country = Country(countryID: string)

  /** How one HTTP lookup ends: the GET, the body read or the JSON decoding
      fails with an error, or the body decodes to a value. The client has no
      timeout, so a GET or body read may also never end at all. */
  datatype Fetch<T> =
    | GetFailed(err: Error)
    | ReadFailed(err: Error)
    | DecodeFailed(err: Error)
    | Decoded(body: T)
    | Hangs

  /** The outside world as seen by the workers: what each lookup yields for
      each URL. */
  datatype Network = Network(
    ages: string -> Fetch<int>,
    genders: string -> Fetch<string>,
    nations: string -> Fetch<seq<Country>>)

  /** A message on one of the four channels: a value on the channel of its
      kind, or an error on the shared error channel. */
  datatype Msg =
    | AgeMsg(age: int)
    | GenderMsg(gender: string)
    | NationMsg(nationality: string)
    | ErrMsg(err: Error)

  /** What a worker does: send one message, wait forever on a lookup that
      never ends without sending anything, or panic. */
  datatype Emission = Sends(msg: Msg) | Silent | Panics

  function BaseURL(add: Addition, kind: Kind): string {
    match kind
    case AgeKind => add.agifyURL
    case GenderKind => add.genderizeURL
    case NationKind => add.nationalizeURL
  }

  /** The error a lookup ended with, if it ended with one. */
  function FetchError<T>(f: Fetch<T>): Option<Error> {
    if f.Decoded? || f.Hangs? then None else Some(f.err)
  }

  function AgeFetch(add: Addition, name: string, net: Network): Fetch<int> {
    net.ages(LookupURL(BaseURL(add, AgeKind), name))
  }

  function GenderFetch(add: Addition, name: string, net: Network): Fetch<string> {
    net.genders(LookupURL(BaseURL(add, GenderKind), name))
  }

  function NationFetch(add: Addition, name: string, net: Network): Fetch<seq<Country>> {
    net.nations(LookupURL(BaseURL(add, NationKind), name))
  }

  /** The age worker sends at most one message: the decoded age, or the error
      of the step that failed; it sends nothing while its lookup never ends. */
  function AgeWorker(add: Addition, name: string, net: Network): (e: Emission)
    ensures !e.Panics?
    ensures e.Silent? <==> AgeFetch(add, name, net).Hangs?
    ensures e.Sends? ==> e.msg.AgeMsg? || e.msg.ErrMsg?
    ensures e.Sends? ==> (e.msg.ErrMsg? <==> FetchError(AgeFetch(add, name, net)).Some?)
    ensures e.Sends? && e.msg.ErrMsg? ==> Some(e.msg.err) == FetchError(AgeFetch(add, name, net))
    ensures e.Sends? && e.msg.AgeMsg? ==> Decoded(e.msg.age) == AgeFetch(add, name, net)
  {
    var f := AgeFetch(add, name, net);
    if f.Hangs? then Silent
    else if f.Decoded? then Sends(AgeMsg(f.body))
    else Sends(ErrMsg(f.err))
  }

  /** The gender worker, alike. */
  function GenderWorker(add: Addition, name: string, net: Network): (e: Emission)
    ensures !e.Panics?
    ensures e.Silent? <==> GenderFetch(add, name, net).Hangs?
    ensures e.Sends? ==> e.msg.GenderMsg? || e.msg.ErrMsg?
    ensures e.Sends? ==> (e.msg.ErrMsg? <==> FetchError(GenderFetch(add, name, net)).Some?)
    ensures e.Sends? && e.msg.ErrMsg? ==> Some(e.msg.err) == FetchError(GenderFetch(add, name, net))
    ensures e.Sends? && e.msg.GenderMsg? ==> Decoded(e.msg.gender) == GenderFetch(add, name, net)
  {
    var f := GenderFetch(add, name, net);
    if f.Hangs? then Silent
    else if f.Decoded? then Sends(GenderMsg(f.body))
    else Sends(ErrMsg(f.err))
  }

  /** The nationality worker sends the country code of the FIRST country of
      the decoded list. An empty list is indexed out of range: the worker
      panics instead of sending anything. */
  function NationWorker(add: Addition, name: string, net: Network): (e: Emission)
    ensures e.Panics? <==> NationFetch(add, name, net) == Decoded([])
    ensures e.Silent? <==> NationFetch(add, name, net).Hangs?
    ensures e.Sends? ==> e.msg.NationMsg? || e.msg.ErrMsg?
    ensures e.Sends? ==> (e.msg.ErrMsg? <==> FetchError(NationFetch(add, name, net)).Some?)
    ensures e.Sends? && e.msg.ErrMsg? ==> Some(e.msg.err) == FetchError(NationFetch(add, name, net))
    ensures e.Sends? && e.msg.NationMsg? ==>
      var f := NationFetch(add, name, net); f.Decoded? && |f.body| > 0 && e.msg.nationality == f.body[0].countryID
  {
    var f := NationFetch(add, name, net);
    if f.Hangs? then Silent
    else if !f.Decoded? then Sends(ErrMsg(f.err))
    else if |f.body| == 0 then Panics
    else Sends(NationMsg(f.body[0].countryID))
  }

  function Worker(add: Addition, name: string, net: Network, kind: Kind): Emission {
    match kind
    case AgeKind => AgeWorker(add, name, net)
    case GenderKind => GenderWorker(add, name, net)
    case NationKind => NationWorker(add, name, net)
  }

  /** A possible arrival order: every worker acts once, in its place; its
      message, if it sends one, arrives there, and a panic happens there. */
  predicate IsSchedule(schedule: seq<Kind>) {
    |schedule| == 3 && AgeKind in schedule && GenderKind in schedule && NationKind in schedule
  }

  /** The four values `GetAdditionAsync` returns; `err == None` is a nil
      error. */
  datatype Reply = Reply(age: int, gender: string, nationality: string, err: Option<Error>)

  /** How an invocation ends: it returns, it waits forever for a message that
      never comes, the process dies of a worker's panic before it returns, or
      it returns and the panic kills the process afterwards. */
  datatype Run = Returns(reply: Reply) | Blocks | Crashes | ReturnsThenCrashes(reply: Reply) {
    /** The process dies, whether or not the call returned first. */
    predicate Dies() {
      Crashes? || ReturnsThenCrashes?
    }
  }

  /** The values the merge loop has stored so far. */
  datatype Slots = Slots(age: int, gender: string, nationality: string)

  /** The zero values the merge loop starts from. */
  const Unset := Slots(0, "", "")

  /** The failure reply: zero values and the error. */
  function Failed(e: Error): Reply {
    Reply(0, "", "", Some(e))
  }

  /** Iteration `i` of the merge loop over the arriving messages: a value is
      stored in the slot of its own kind, an error ends the invocation, and
      after three messages the stored values are returned. */
  function Receive(arrivals: seq<Msg>, i: nat, slots: Slots): (r: Run)
    requires i <= 3
    ensures !r.Crashes?
    ensures r.Returns? && r.reply.err.Some? ==> r.reply == Failed(r.reply.err.value)
    decreases 3 - i
  {
    if i == 3 then Returns(Reply(slots.age, slots.gender, slots.nationality, None))
    else if i >= |arrivals| then Blocks
    else match arrivals[i]
      case AgeMsg(a) => Receive(arrivals, i + 1, slots.(age := a))
      case GenderMsg(g) => Receive(arrivals, i + 1, slots.(gender := g))
      case NationMsg(n) => Receive(arrivals, i + 1, slots.(nationality := n))
      case ErrMsg(e) => Returns(Failed(e))
  }

  /** The merge loop: never reports a partial result alongside an error. */
  function Merge(arrivals: seq<Msg>): (r: Run)
    ensures !r.Crashes?
    ensures r.Returns? && r.reply.err.Some? ==> r.reply == Failed(r.reply.err.value)
  {
    Receive(arrivals, 0, Unset)
  }

  /** The messages that reach the merge loop, in arrival order: the message of
      each worker of the schedule that sends one. A silent worker's message
      never comes. */
  function Arrivals(add: Addition, name: string, net: Network, schedule: seq<Kind>): (arrivals: seq<Msg>)
    ensures |arrivals| <= |schedule|
    decreases |schedule|
  {
    if |schedule| == 0 then []
    else
      var e := Worker(add, name, net, schedule[0]);
      (if e.Sends? then [e.msg] else []) + Arrivals(add, name, net, schedule[1..])
  }

  /** The kinds scheduled before the first `kind`: the workers whose
      messages arrive before that worker acts. */
  function KindsBefore(schedule: seq<Kind>, kind: Kind): (before: seq<Kind>)
    ensures |before| <= |schedule| && before == schedule[..|before|]
    ensures kind !in before
    ensures kind in schedule ==> |before| < |schedule| && schedule[|before|] == kind
    decreases |schedule|
  {
    if |schedule| == 0 || schedule[0] == kind then []
    else [schedule[0]] + KindsBefore(schedule[1..], kind)
  }

  /** `GetAdditionAsync(name)` under a given network and arrival order. Only
      the nationality worker can panic, and it panics in its place in the
      schedule: the merge loop has then seen only the messages scheduled
      before it. If those already ended the loop, the call returns before the
      process dies; otherwise the process dies first. Either way the process
      dies exactly when the country list decodes empty. */
  function GetAdditionAsync(add: Addition, name: string, net: Network, schedule: seq<Kind>): (r: Run)
    requires IsSchedule(schedule)
    ensures r.Dies() <==> NationFetch(add, name, net) == Decoded([])
    ensures r.ReturnsThenCrashes? ==> r.reply.err.Some?
    ensures (r.Returns? || r.ReturnsThenCrashes?) && r.reply.err.Some? ==> r.reply == Failed(r.reply.err.value)
  {
    if Worker(add, name, net, NationKind).Panics? then
      var early := Arrivals(add, name, net, KindsBefore(schedule, NationKind));
      MergeOutcome(early);
      match Merge(early)
      case Returns(reply) => ReturnsThenCrashes(reply)
      case _ => Crashes
    else Merge(Arrivals(add, name, net, schedule))
  }

  // ---------------------------------------------------------------------------
  // The merge loop

  predicate NoErrorBefore(arrivals: seq<Msg>, k: int) {
    forall j | 0 <= j < k && j < |arrivals| :: !arrivals[j].ErrMsg?
  }

  lemma {:induction false} ReceiveFirstError(arrivals: seq<Msg>, i: nat, slots: Slots, k: nat)
    requires i <= k < 3 && k < |arrivals|
    requires arrivals[k].ErrMsg?
    requires forall j | i <= j < k :: !arrivals[j].ErrMsg?
    ensures Receive(arrivals, i, slots) == Returns(Failed(arrivals[k].err))
    decreases 3 - i
  {
    if i < k {
      match arrivals[i]
      case AgeMsg(a) => ReceiveFirstError(arrivals, i + 1, slots.(age := a), k);
      case GenderMsg(g) => ReceiveFirstError(arrivals, i + 1, slots.(gender := g), k);
      case NationMsg(n) => ReceiveFirstError(arrivals, i + 1, slots.(nationality := n), k);
    }
  }

  /** First error wins: the reply carries the error of the earliest error
      message among the first three, whatever values arrived before it. */
  lemma MergeFirstError(arrivals: seq<Msg>, k: nat)
    requires k < 3 && k < |arrivals|
    requires arrivals[k].ErrMsg? && NoErrorBefore(arrivals, k)
    ensures Merge(arrivals) == Returns(Failed(arrivals[k].err))
  {
    ReceiveFirstError(arrivals, 0, Unset, k);
  }

  lemma {:induction false} ReceiveClean(arrivals: seq<Msg>, i: nat, slots: Slots)
    requires i <= 3 && i <= |arrivals|
    requires forall j | i <= j < 3 && j < |arrivals| :: !arrivals[j].ErrMsg?
    ensures Receive(arrivals, i, slots).Returns? <==> |arrivals| >= 3
    ensures Receive(arrivals, i, slots).Returns? ==> Receive(arrivals, i, slots).reply.err.None?
    decreases 3 - i
  {
    if i < 3 && i < |arrivals| {
      match arrivals[i]
      case AgeMsg(a) => ReceiveClean(arrivals, i + 1, slots.(age := a));
      case GenderMsg(g) => ReceiveClean(arrivals, i + 1, slots.(gender := g));
      case NationMsg(n) => ReceiveClean(arrivals, i + 1, slots.(nationality := n));
    }
  }

  /** How the merge loop ends, in terms of the arrivals alone: it succeeds iff
      three messages arrive and none of them is an error; it blocks iff fewer
      than three arrive and none is an error; otherwise it fails with the
      first error. */
  lemma MergeOutcome(arrivals: seq<Msg>)
    ensures Merge(arrivals).Returns? && Merge(arrivals).reply.err.None?
        <==> |arrivals| >= 3 && NoErrorBefore(arrivals, 3)
    ensures Merge(arrivals).Blocks? <==> |arrivals| < 3 && NoErrorBefore(arrivals, 3)
  {
    if NoErrorBefore(arrivals, 3) {
      ReceiveClean(arrivals, 0, Unset);
    } else {
      var k := if arrivals[0].ErrMsg? then 0 else if arrivals[1].ErrMsg? then 1 else 2;
      MergeFirstError(arrivals, k);
    }
  }

  lemma {:induction false} ReceiveIgnoresLater(arrivals: seq<Msg>, later: seq<Msg>, i: nat, slots: Slots)
    requires i <= 3 <= |arrivals|
    ensures Receive(arrivals + later, i, slots) == Receive(arrivals, i, slots)
    decreases 3 - i
  {
    if i < 3 {
      assert (arrivals + later)[i] == arrivals[i];
      match arrivals[i]
      case AgeMsg(a) => ReceiveIgnoresLater(arrivals, later, i + 1, slots.(age := a));
      case GenderMsg(g) => ReceiveIgnoresLater(arrivals, later, i + 1, slots.(gender := g));
      case NationMsg(n) => ReceiveIgnoresLater(arrivals, later, i + 1, slots.(nationality := n));
      case ErrMsg(e) =>
    }
  }

  /** The merge loop reads at most three messages: whatever arrives after the
      third is never looked at. */
  lemma MergeReadsAtMostThree(arrivals: seq<Msg>, later: seq<Msg>)
    requires |arrivals| >= 3
    ensures Merge(arrivals + later) == Merge(arrivals)
  {
    ReceiveIgnoresLater(arrivals, later, 0, Unset);
  }

  /** The value message a successful worker of `kind` sends. */
  function ValueMsg(kind: Kind, age: int, gender: string, nationality: string): Msg {
    match kind
    case AgeKind => AgeMsg(age)
    case GenderKind => GenderMsg(gender)
    case NationKind => NationMsg(nationality)
  }

  /** The slot of `kind` holds its value once that kind has arrived. */
  predicate SlotsFilled(slots: Slots, arrived: seq<Kind>, age: int, gender: string, nationality: string) {
    && (AgeKind in arrived ==> slots.age == age)
    && (GenderKind in arrived ==> slots.gender == gender)
    && (NationKind in arrived ==> slots.nationality == nationality)
  }

  lemma {:induction false} ReceiveAttribution(
    schedule: seq<Kind>, arrivals: seq<Msg>, i: nat, slots: Slots,
    age: int, gender: string, nationality: string)
    requires IsSchedule(schedule) && i <= 3 && |arrivals| == 3
    requires forall j | 0 <= j < 3 :: arrivals[j] == ValueMsg(schedule[j], age, gender, nationality)
    requires SlotsFilled(slots, schedule[..i], age, gender, nationality)
    ensures Receive(arrivals, i, slots) == Returns(Reply(age, gender, nationality, None))
    decreases 3 - i
  {
    if i == 3 {
      assert schedule[..3] == schedule;
    } else {
      assert schedule[..i + 1] == schedule[..i] + [schedule[i]];
      match schedule[i]
      case AgeKind =>
        ReceiveAttribution(schedule, arrivals, i + 1, slots.(age := age), age, gender, nationality);
      case GenderKind =>
        ReceiveAttribution(schedule, arrivals, i + 1, slots.(gender := gender), age, gender, nationality);
      case NationKind =>
        ReceiveAttribution(schedule, arrivals, i + 1, slots.(nationality := nationality), age, gender, nationality);
    }
  }

  /** Attribution by kind: when the three value messages arrive in any order,
      each value ends up in the field of its own kind. */
  lemma MergeAttribution(schedule: seq<Kind>, age: int, gender: string, nationality: string)
    requires IsSchedule(schedule)
    ensures Merge(seq(3, j requires 0 <= j < 3 => ValueMsg(schedule[j], age, gender, nationality)))
         == Returns(Reply(age, gender, nationality, None))
  {
    var arrivals := seq(3, j requires 0 <= j < 3 => ValueMsg(schedule[j], age, gender, nationality));
    ReceiveAttribution(schedule, arrivals, 0, Unset, age, gender, nationality);
  }

  // ---------------------------------------------------------------------------
  // The whole invocation

  /** Every lookup decoded, and the country list is not empty. */
  predicate AllSucceed(add: Addition, name: string, net: Network) {
    && AgeFetch(add, name, net).Decoded?
    && GenderFetch(add, name, net).Decoded?
    && NationFetch(add, name, net).Decoded?
    && |NationFetch(add, name, net).body| > 0
  }

  /** The error the lookup of `kind` ended with, if any. */
  function LookupError(add: Addition, name: string, net: Network, kind: Kind): Option<Error> {
    match kind
    case AgeKind => FetchError(AgeFetch(add, name, net))
    case GenderKind => FetchError(GenderFetch(add, name, net))
    case NationKind => FetchError(NationFetch(add, name, net))
  }

  /** Some lookup ended with an error. */
  predicate AnyLookupFails(add: Addition, name: string, net: Network) {
    || LookupError(add, name, net, AgeKind).Some?
    || LookupError(add, name, net, GenderKind).Some?
    || LookupError(add, name, net, NationKind).Some?
  }

  /** Some lookup never ends. */
  predicate AnyLookupHangs(add: Addition, name: string, net: Network) {
    || AgeFetch(add, name, net).Hangs?
    || GenderFetch(add, name, net).Hangs?
    || NationFetch(add, name, net).Hangs?
  }

  /** A worker is silent iff its lookup never ends, and an error message
      carries exactly the error its lookup ended with. */
  lemma WorkerMessages(add: Addition, name: string, net: Network, kind: Kind)
    ensures Worker(add, name, net, kind).Silent? ==> LookupError(add, name, net, kind).None?
    ensures Worker(add, name, net, kind).Sends? ==>
      (Worker(add, name, net, kind).msg.ErrMsg? <==> LookupError(add, name, net, kind).Some?)
    ensures Worker(add, name, net, kind).Sends? && Worker(add, name, net, kind).msg.ErrMsg?
        ==> Worker(add, name, net, kind).msg.err == LookupError(add, name, net, kind).value
  {
  }

  /** When every worker of the schedule sends, the arrivals are their messages
      in schedule order. */
  lemma {:induction false} ArrivalsAllSend(add: Addition, name: string, net: Network, schedule: seq<Kind>)
    requires forall j | 0 <= j < |schedule| :: Worker(add, name, net, schedule[j]).Sends?
    ensures Arrivals(add, name, net, schedule)
         == seq(|schedule|, j requires 0 <= j < |schedule| => Worker(add, name, net, schedule[j]).msg)
    decreases |schedule|
  {
    if |schedule| > 0 {
      var rest := schedule[1..];
      ArrivalsAllSend(add, name, net, rest);
      var arrivals := Arrivals(add, name, net, schedule);
      assert arrivals == [Worker(add, name, net, schedule[0]).msg] + Arrivals(add, name, net, rest);
      forall j | 0 <= j < |schedule| ensures arrivals[j] == Worker(add, name, net, schedule[j]).msg {
        if j > 0 { assert rest[j - 1] == schedule[j]; }
      }
    }
  }

  /** A silent worker leaves fewer arrivals than workers. */
  lemma {:induction false} ArrivalsShort(add: Addition, name: string, net: Network, schedule: seq<Kind>, j: nat)
    requires j < |schedule| && Worker(add, name, net, schedule[j]).Silent?
    ensures |Arrivals(add, name, net, schedule)| < |schedule|
    decreases |schedule|
  {
    if j > 0 {
      ArrivalsShort(add, name, net, schedule[1..], j - 1);
    }
  }

  /** When no lookup of the schedule failed, no error message arrives. */
  lemma {:induction false} ArrivalsClean(add: Addition, name: string, net: Network, schedule: seq<Kind>)
    requires forall j | 0 <= j < |schedule| :: LookupError(add, name, net, schedule[j]).None?
    ensures forall i | 0 <= i < |Arrivals(add, name, net, schedule)| :: !Arrivals(add, name, net, schedule)[i].ErrMsg?
    decreases |schedule|
  {
    if |schedule| > 0 {
      var rest := schedule[1..];
      assert forall j | 0 <= j < |rest| :: rest[j] == schedule[j + 1];
      ArrivalsClean(add, name, net, rest);
      WorkerMessages(add, name, net, schedule[0]);
    }
  }

  /** The error of the earliest failed lookup of the schedule arrives no later
      than that lookup's place, after no other error. */
  lemma {:induction false} ArrivalsFirstError(add: Addition, name: string, net: Network, schedule: seq<Kind>, j: nat)
    returns (k: nat)
    requires j < |schedule| && LookupError(add, name, net, schedule[j]).Some?
    requires forall i | 0 <= i < j :: LookupError(add, name, net, schedule[i]).None?
    ensures k <= j && k < |Arrivals(add, name, net, schedule)|
    ensures Arrivals(add, name, net, schedule)[k] == ErrMsg(LookupError(add, name, net, schedule[j]).value)
    ensures NoErrorBefore(Arrivals(add, name, net, schedule), k)
    decreases |schedule|
  {
    var arrivals := Arrivals(add, name, net, schedule);
    var rest := schedule[1..];
    var e := Worker(add, name, net, schedule[0]);
    WorkerMessages(add, name, net, schedule[0]);
    assert arrivals == (if e.Sends? then [e.msg] else []) + Arrivals(add, name, net, rest);
    if j == 0 {
      k := 0;
    } else {
      assert rest[j - 1] == schedule[j];
      assert forall i | 0 <= i < j - 1 :: rest[i] == schedule[i + 1];
      var k' := ArrivalsFirstError(add, name, net, rest, j - 1);
      k := if e.Sends? then k' + 1 else k';
    }
  }

  /** All-or-nothing: the invocation blocks exactly when no lookup failed but
      one never ends (and none panics); it succeeds iff every lookup succeeded,
      and then returns exactly the three looked-up values; a failure carries no
      value. */
  lemma EnrichmentAllOrNothing(add: Addition, name: string, net: Network, schedule: seq<Kind>)
    requires IsSchedule(schedule)
    ensures GetAdditionAsync(add, name, net, schedule).Blocks?
        <==> && !AnyLookupFails(add, name, net)
             && AnyLookupHangs(add, name, net)
             && NationFetch(add, name, net) != Decoded([])
    ensures var r := GetAdditionAsync(add, name, net, schedule);
      r.Returns? && r.reply.err.Some? ==> r.reply == Failed(r.reply.err.value)
    ensures var r := GetAdditionAsync(add, name, net, schedule);
      r.Returns? && r.reply.err.None? <==> AllSucceed(add, name, net)
    ensures AllSucceed(add, name, net) ==>
      GetAdditionAsync(add, name, net, schedule) == Returns(Reply(
        AgeFetch(add, name, net).body,
        GenderFetch(add, name, net).body,
        NationFetch(add, name, net).body[0].countryID,
        None))
  {
    if NationFetch(add, name, net) != Decoded([]) {
      var arrivals := Arrivals(add, name, net, schedule);
      assert GetAdditionAsync(add, name, net, schedule) == Merge(arrivals);
      MergeOutcome(arrivals);
      if AllSucceed(add, name, net) {
        var a := AgeFetch(add, name, net).body;
        var g := GenderFetch(add, name, net).body;
        var n := NationFetch(add, name, net).body[0].countryID;
        ArrivalsAllSend(add, name, net, schedule);
        assert arrivals == seq(3, j requires 0 <= j < 3 => ValueMsg(schedule[j], a, g, n));
        MergeAttribution(schedule, a, g, n);
      } else if AnyLookupFails(add, name, net) {
        var failed: Kind :| LookupError(add, name, net, failed).Some?;
        var at :| 0 <= at < 3 && schedule[at] == failed;
        var j := if LookupError(add, name, net, schedule[0]).Some? then 0
          else if LookupError(add, name, net, schedule[1]).Some? then 1
          else 2;
        assert j <= at;
        var k := ArrivalsFirstError(add, name, net, schedule, j);
        MergeFirstError(arrivals, k);
      } else {
        var hung := if AgeFetch(add, name, net).Hangs? then AgeKind
          else if GenderFetch(add, name, net).Hangs? then GenderKind
          else NationKind;
        var at :| 0 <= at < 3 && schedule[at] == hung;
        ArrivalsShort(add, name, net, schedule, at);
        forall j | 0 <= j < 3 ensures LookupError(add, name, net, schedule[j]).None? {
        }
        ArrivalsClean(add, name, net, schedule);
      }
    }
  }

  /** First failure wins: when no worker panics and the earliest failed lookup
      in arrival order is the `j`-th, the invocation fails with its error,
      even if a later lookup never ends. */
  lemma EnrichmentFirstFailure(add: Addition, name: string, net: Network, schedule: seq<Kind>, j: nat)
    requires IsSchedule(schedule)
    requires NationFetch(add, name, net) != Decoded([])
    requires j < 3 && LookupError(add, name, net, schedule[j]).Some?
    requires forall i | 0 <= i < j :: LookupError(add, name, net, schedule[i]).None?
    ensures GetAdditionAsync(add, name, net, schedule)
         == Returns(Failed(LookupError(add, name, net, schedule[j]).value))
  {
    var arrivals := Arrivals(add, name, net, schedule);
    assert GetAdditionAsync(add, name, net, schedule) == Merge(arrivals);
    var k := ArrivalsFirstError(add, name, net, schedule, j);
    MergeFirstError(arrivals, k);
  }

  /** The panic comes first: when the country list is empty and no lookup
      scheduled before the nationality worker failed, the process dies before
      the call returns. */
  lemma EnrichmentPanicFirst(add: Addition, name: string, net: Network, schedule: seq<Kind>)
    requires IsSchedule(schedule) && NationFetch(add, name, net) == Decoded([])
    requires forall i | 0 <= i < |KindsBefore(schedule, NationKind)| ::
      LookupError(add, name, net, KindsBefore(schedule, NationKind)[i]).None?
    ensures GetAdditionAsync(add, name, net, schedule) == Crashes
  {
    var before := KindsBefore(schedule, NationKind);
    ArrivalsClean(add, name, net, before);
    MergeOutcome(Arrivals(add, name, net, before));
  }

  /** An error first: when the country list is empty but a lookup scheduled
      before the nationality worker failed, the call returns the earliest such
      error, and only then does the panic kill the process. */
  lemma EnrichmentErrorBeforePanic(add: Addition, name: string, net: Network, schedule: seq<Kind>, j: nat)
    requires IsSchedule(schedule) && NationFetch(add, name, net) == Decoded([])
    requires j < |KindsBefore(schedule, NationKind)| && LookupError(add, name, net, schedule[j]).Some?
    requires forall i | 0 <= i < j :: LookupError(add, name, net, schedule[i]).None?
    ensures GetAdditionAsync(add, name, net, schedule)
         == ReturnsThenCrashes(Failed(LookupError(add, name, net, schedule[j]).value))
  {
    var before := KindsBefore(schedule, NationKind);
    assert forall i | 0 <= i <= j :: before[i] == schedule[i];
    var k := ArrivalsFirstError(add, name, net, before, j);
    MergeFirstError(Arrivals(add, name, net, before), k);
  }

  /** Order independence: whether the process dies, whether an invocation
      blocks or succeeds, and what it returns when it succeeds, do not depend
      on the arrival order. */
  lemma EnrichmentScheduleIndependent(add: Addition, name: string, net: Network, s1: seq<Kind>, s2: seq<Kind>)
    requires IsSchedule(s1) && IsSchedule(s2)
    ensures GetAdditionAsync(add, name, net, s1).Dies() == GetAdditionAsync(add, name, net, s2).Dies()
    ensures GetAdditionAsync(add, name, net, s1).Blocks? == GetAdditionAsync(add, name, net, s2).Blocks?
    ensures var r1, r2 := GetAdditionAsync(add, name, net, s1), GetAdditionAsync(add, name, net, s2);
      (r1.Returns? && r1.reply.err.None?) <==> (r2.Returns? && r2.reply.err.None?)
    ensures var r1, r2 := GetAdditionAsync(add, name, net, s1), GetAdditionAsync(add, name, net, s2);
      r1.Returns? && r1.reply.err.None? ==> r1 == r2
  {
    EnrichmentAllOrNothing(add, name, net, s1);
    EnrichmentAllOrNothing(add, name, net, s2);
  }
}
