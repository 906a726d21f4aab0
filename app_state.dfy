/**
 * The dashboard's store: three fields, a shallow merge (`storeUpdate` applies
 * `Object.assign(store, newState)`) and the three partial records the page
 * ever passes to it.
 *
 * The empty string stands for "absent" in the source for both
 * `roverSelected` and `data`, because both are tested for falsiness; here an
 * empty `roverSelected` keeps that meaning and `data` is a `Data` value whose
 * `NoData` case is the empty string.
 */
module AppState {
  import opened Wrappers

  /** `photos[k].rover` in the backend's reply. */
  datatype RoverInfo = RoverInfo(name: string, launchDate: string, landingDate: string, status: string)

  /** One entry of `data.results.photos`. */
  datatype Photo = Photo(imgSrc: string, earthDate: string, rover: RoverInfo)

  /** The reply of `GET /<rover>`: `{ results: { photos: [...] } }`. */
  datatype Payload = Payload(photos: seq<Photo>)

  /** `store.data`: the empty string until a reply arrives. */
  datatype Data = NoData | Loaded(payload: Payload)

  datatype State = State(roverSelected: string, data: Data, rovers: seq<string>)

  const Catalog: seq<string> := ["Spirit", "Opportunity", "Curiosity"]

  /** The store as the page declares it. */
  const InitialState: State := State("", NoData, Catalog)

  /** The argument of `storeUpdate`: a record naming some of the store's fields. */
  datatype Partial = Partial(roverSelected: Option<string>, data: Option<Data>, rovers: Option<seq<string>>)

  /** `Object.assign(store, partial)`: every named field is replaced, every other one kept. */
  function Merge(s: State, p: Partial): (r: State)
    ensures p.roverSelected.Some? ==> r.roverSelected == p.roverSelected.value
    ensures p.roverSelected.None? ==> r.roverSelected == s.roverSelected
    ensures p.data.Some? ==> r.data == p.data.value
    ensures p.data.None? ==> r.data == s.data
    ensures p.rovers.Some? ==> r.rovers == p.rovers.value
    ensures p.rovers.None? ==> r.rovers == s.rovers
  {
    var s1 := if p.roverSelected.Some? then s.(roverSelected := p.roverSelected.value) else s;
    var s2 := if p.data.Some? then s1.(data := p.data.value) else s1;
    if p.rovers.Some? then s2.(rovers := p.rovers.value) else s2
  }

  /** The three places that call `storeUpdate`. */
  datatype Action =
    | Select(rover: string)   // a rover card's onclick: `{roverSelected: '<rover>'}`
    | Back                    // a back button's onclick: `{roverSelected: '', data: ''}`
    | Arrived(reply: Payload) // the fetch's last `then`: `{ data }`

  /**
   * The object literal each call site passes. None of them names `rovers`;
   * only the card leaves `data` out, and only the fetch leaves `roverSelected` out.
   */
  function PartialOf(a: Action): (r: Partial)
    ensures r.rovers == None
    ensures r.data.Some? <==> !a.Select?
    ensures r.roverSelected.Some? <==> !a.Arrived?
  {
    match a
    case Select(rover) => Partial(Some(rover), None, None)
    case Back => Partial(Some(""), Some(NoData), None)
    case Arrived(reply) => Partial(None, Some(Loaded(reply)), None)
  }

  /** One `storeUpdate` call from a call site; it never touches the rover list. */
  function Step(s: State, a: Action): (r: State)
    ensures r.rovers == s.rovers
  {
    Merge(s, PartialOf(a))
  }

  /**
   * The store after the actions, applied one after the other: no sequence of
   * the page's updates ever changes the rover list.
   */
  function Run(s: State, actions: seq<Action>): (r: State)
    ensures r.rovers == s.rovers
    decreases |actions|
  {
    if actions == [] then s else Run(Step(s, actions[0]), actions[1..])
  }

  // ------------------------------------------------------------------ lemmas

  /** Merging the same record a second time changes nothing more. */
  lemma MergeIdempotent(s: State, p: Partial)
    ensures Merge(Merge(s, p), p) == Merge(s, p)
  {
  }

  /** Two merges in a row are one merge of both records, the later one winning. */
  lemma MergeTwice(s: State, p: Partial, q: Partial)
    ensures Merge(Merge(s, p), q) ==
      Merge(s, Partial(if q.roverSelected.Some? then q.roverSelected else p.roverSelected,
                       if q.data.Some? then q.data else p.data,
                       if q.rovers.Some? then q.rovers else p.rovers))
  {
  }

  /** A rover card sets the selection to its rover and changes nothing else. */
  lemma SelectChanges(s: State, rover: string)
    ensures Step(s, Select(rover)) == s.(roverSelected := rover)
  {
  }

  /** A back button clears both the selection and the data, and nothing else. */
  lemma BackChanges(s: State)
    ensures Step(s, Back) == s.(roverSelected := "", data := NoData)
  {
  }

  /** A reply replaces the data, whatever rover is selected, and nothing else. */
  lemma ArrivedChanges(s: State, reply: Payload)
    ensures Step(s, Arrived(reply)) == s.(data := Loaded(reply))
  {
  }

  /** Back twice is back once, and back on the initial store is no change. */
  lemma BackIdempotent(s: State)
    ensures Step(Step(s, Back), Back) == Step(s, Back)
    ensures Step(InitialState, Back) == InitialState
  {
  }

  lemma {:induction false} RunAppend(s: State, xs: seq<Action>, ys: seq<Action>)
    ensures Run(s, xs + ys) == Run(Run(s, xs), ys)
    decreases |xs|
  {
    if xs == [] {
      assert xs + ys == ys;
    } else {
      assert (xs + ys)[0] == xs[0];
      assert (xs + ys)[1..] == xs[1..] + ys;
      RunAppend(Step(s, xs[0]), xs[1..], ys);
    }
  }

  /** One more action at the end of a run is one more step. */
  lemma RunSnoc(s: State, xs: seq<Action>, a: Action)
    ensures Run(s, xs + [a]) == Step(Run(s, xs), a)
  {
    RunAppend(s, xs, [a]);
    assert [a][1..] == [];
  }

  /** Running one more action of a trace is one more step. */
  lemma PrefixStep(s: State, trace: seq<Action>, k: nat)
    requires k < |trace|
    ensures Run(s, trace[..k + 1]) == Step(Run(s, trace[..k]), trace[k])
  {
    assert trace[..k + 1] == trace[..k] + [trace[k]];
    RunSnoc(s, trace[..k], trace[k]);
  }

  /** "No rover chosen" comes with "no data": what the back action restores. */
  predicate Consistent(s: State)
  {
    s.roverSelected == "" ==> s.data == NoData
  }

  /**
   * From a consistent store, every action leads to a consistent store except a
   * reply that arrives while no rover is selected (one requested before the
   * user pressed back), and the selection of a rover with an empty name while
   * data is shown.
   */
  lemma StepConsistent(s: State, a: Action)
    requires Consistent(s)
    ensures Consistent(Step(s, a)) <==>
      !(a.Arrived? && s.roverSelected == "") && !(a.Select? && a.rover == "" && s.data.Loaded?)
  {
  }
}
