/**
 * The page's global `store` together with the `root` element it is rendered
 * into: `storeUpdate` merges a partial record into the store and re-renders,
 * and rendering writes `App(store)` into `root.innerHTML`. The fetch that the
 * section renderer starts is recorded as the path it requests; its reply comes
 * back as an `Arrived` action.
 */
module Dashboard {
  import opened Wrappers
  import opened Markup
  import opened AppState
  import opened Components

  /** `root.innerHTML` after a render with outcome `v`: a render that throws writes nothing. */
  function PageAfter(v: View, page: string): string
  {
    match v
    case View(html, _) => html
    case Threw => page
  }

  /** The fetches issued so far, after a render with outcome `v`. */
  function FetchedAfter(v: View, fetched: seq<string>): seq<string>
  {
    match v
    case View(_, Some(path)) => fetched + [path]
    case _ => fetched
  }

  class Store {
    var roverSelected: string
    var data: Data
    var rovers: seq<string>
    /** `root.innerHTML` */
    var page: string
    /** The paths passed to `fetch` so far, oldest first. */
    var fetched: seq<string>

    function Snapshot(): State
      reads this
    {
      State(roverSelected, data, rovers)
    }

    /** The store as declared, before the first render. */
    constructor ()
      ensures Snapshot() == InitialState
      ensures page == "" && fetched == []
    {
      roverSelected, data, rovers := "", NoData, Catalog;
      page, fetched := "", [];
    }

    /** `render(root, store)`; the load listener calls it once. */
    method Render()
      modifies this`page, this`fetched
      ensures page == PageAfter(App(Snapshot()), old(page))
      ensures fetched == FetchedAfter(App(Snapshot()), old(fetched))
    {
      var v := App(Snapshot());
      match v {
        case View(html, fetch) =>
          if fetch.Some? {
            fetched := fetched + [fetch.value];
          }
          page := html;
        case Threw =>
      }
    }

    /** `storeUpdate(newState)`: `Object.assign(store, newState)`, then render. */
    method Update(p: Partial)
      modifies this
      ensures Snapshot() == Merge(old(Snapshot()), p)
      ensures page == PageAfter(App(Snapshot()), old(page))
      ensures fetched == FetchedAfter(App(Snapshot()), old(fetched))
    {
      if p.roverSelected.Some? {
        roverSelected := p.roverSelected.value;
      }
      if p.data.Some? {
        data := p.data.value;
      }
      if p.rovers.Some? {
        rovers := p.rovers.value;
      }
      Render();
    }

    /** One of the three call sites of `storeUpdate` firing. */
    method Dispatch(a: Action)
      modifies this
      ensures Snapshot() == Step(old(Snapshot()), a)
      ensures rovers == old(rovers)
      ensures page == PageAfter(App(Snapshot()), old(page))
      ensures fetched == FetchedAfter(App(Snapshot()), old(fetched))
    {
      Update(PartialOf(a));
    }
  }

  // --------------------------------------------------------------- scenarios

  /** The catalog's names can all be carried by a card. */
  lemma CatalogCardSafe()
    ensures forall i :: 0 <= i < |Catalog| ==> CardSafe(Catalog[i])
  {
    assert CardSafe("Spirit") && CardSafe("Opportunity") && CardSafe("Curiosity");
  }

  /** The first render shows the three catalog cards in order and fetches nothing. */
  lemma InitialPage()
    ensures App(InitialState).View? && App(InitialState).fetch == None
    ensures var section := Inside(AppOpen, AppClose, App(InitialState).html);
      section.Some? && ParseRoverList(section.value) ==
      Some([Card("Spirit", "Spirit"), Card("Opportunity", "Opportunity"), Card("Curiosity", "Curiosity")])
  {
    CatalogCardSafe();
    RoverListView(InitialState);
    assert MapSeq(Catalog, SelfCard) ==
      [Card("Spirit", "Spirit"), Card("Opportunity", "Opportunity"), Card("Curiosity", "Curiosity")];
  }

  /**
   * Selecting a rover renders an empty section and asks for `/<rover>`; when
   * the reply arrives, the section shows the reply's first mission facts and
   * one image per photo.
   */
  lemma FetchCycle(rover: string, reply: Payload)
    requires rover != ""
    requires ReplySafe(reply)
    ensures RoverData(Run(InitialState, [Select(rover)])) == View("", Some("/" + rover))
    ensures var shown := RoverData(Run(InitialState, [Select(rover), Arrived(reply)]));
      shown.View? && shown.fetch == None && ParseDetail(shown.html) == Some(DetailOf(reply))
  {
    var selected := Step(InitialState, Select(rover));
    RunSnoc(InitialState, [], Select(rover));
    assert [] + [Select(rover)] == [Select(rover)];
    RunSnoc(InitialState, [Select(rover)], Arrived(reply));
    assert [Select(rover)] + [Arrived(reply)] == [Select(rover), Arrived(reply)];
    DetailView(Step(selected, Arrived(reply)));
  }

  /**
   * Two clicks on one card within the selection delay fire the selection
   * twice, and each render asks for the rover's data. The first reply shows
   * the detail view and its back buttons; back shows the cards again; the
   * second reply then arrives and is kept, and the next rover selected shows
   * it, unfetched, as its own detail.
   */
  lemma StaleReply(first: string, next: string, earlier: Payload, reply: Payload)
    requires first in Catalog && next in Catalog
    requires ReplySafe(earlier) && ReplySafe(reply)
    ensures var trace := [Select(first), Select(first), Arrived(earlier), Back, Arrived(reply), Select(next)];
      RoverData(Run(InitialState, trace[..1])) == View("", Some("/" + first)) &&
      RoverData(Run(InitialState, trace[..2])) == View("", Some("/" + first)) &&
      RoverData(Run(InitialState, trace[..3])).View? &&
      ParseDetail(RoverData(Run(InitialState, trace[..3])).html) == Some(DetailOf(earlier)) &&
      Run(InitialState, trace[..5]).roverSelected == "" &&
      RoverData(Run(InitialState, trace[..5])).View? &&
      ParseRoverList(RoverData(Run(InitialState, trace[..5])).html) == Some(MapSeq(Catalog, SelfCard)) &&
      Run(InitialState, trace).roverSelected == next &&
      RoverData(Run(InitialState, trace)).View? && RoverData(Run(InitialState, trace)).fetch == None &&
      ParseDetail(RoverData(Run(InitialState, trace)).html) == Some(DetailOf(reply))
  {
    var trace := [Select(first), Select(first), Arrived(earlier), Back, Arrived(reply), Select(next)];
    assert first != "" && next != "";
    var s1 := Run(InitialState, trace[..1]);
    var s2 := Run(InitialState, trace[..2]);
    var s3 := Run(InitialState, trace[..3]);
    var s4 := Run(InitialState, trace[..4]);
    var s5 := Run(InitialState, trace[..5]);
    var s6 := Run(InitialState, trace);
    assert s1 == State(first, NoData, Catalog) by {
      assert trace[..0] == [];
      PrefixStep(InitialState, trace, 0);
    }
    assert s2 == s1 by {
      PrefixStep(InitialState, trace, 1);
    }
    assert s3 == State(first, Loaded(earlier), Catalog) by {
      PrefixStep(InitialState, trace, 2);
    }
    assert s4 == InitialState by {
      PrefixStep(InitialState, trace, 3);
    }
    assert s5 == State("", Loaded(reply), Catalog) by {
      PrefixStep(InitialState, trace, 4);
    }
    assert s6 == State(next, Loaded(reply), Catalog) by {
      PrefixStep(InitialState, trace, 5);
      assert trace[..6] == trace;
    }
    DetailView(s3);
    CatalogCardSafe();
    RoverListView(s5);
    DetailView(s6);
  }

  /**
   * Clicks on two different cards within the selection delay fire both
   * selections, and each render asks for its own rover. If the replies come
   * back in the reverse order, the second rover's detail is shown first and
   * is then replaced by the first rover's reply, still under the second
   * rover's selection.
   */
  lemma CrossedReplies(a: string, b: string, ra: Payload, rb: Payload)
    requires a in Catalog && b in Catalog
    requires ReplySafe(ra) && ReplySafe(rb)
    ensures var trace := [Select(a), Select(b), Arrived(rb), Arrived(ra)];
      RoverData(Run(InitialState, trace[..1])) == View("", Some("/" + a)) &&
      RoverData(Run(InitialState, trace[..2])) == View("", Some("/" + b)) &&
      RoverData(Run(InitialState, trace[..3])).View? &&
      ParseDetail(RoverData(Run(InitialState, trace[..3])).html) == Some(DetailOf(rb)) &&
      Run(InitialState, trace).roverSelected == b &&
      RoverData(Run(InitialState, trace)).View? && RoverData(Run(InitialState, trace)).fetch == None &&
      ParseDetail(RoverData(Run(InitialState, trace)).html) == Some(DetailOf(ra))
  {
    var trace := [Select(a), Select(b), Arrived(rb), Arrived(ra)];
    assert a != "" && b != "";
    var s1 := Run(InitialState, trace[..1]);
    var s2 := Run(InitialState, trace[..2]);
    var s3 := Run(InitialState, trace[..3]);
    var s4 := Run(InitialState, trace);
    assert s1 == State(a, NoData, Catalog) by {
      assert trace[..0] == [];
      PrefixStep(InitialState, trace, 0);
    }
    assert s2 == State(b, NoData, Catalog) by {
      PrefixStep(InitialState, trace, 1);
    }
    assert s3 == State(b, Loaded(rb), Catalog) by {
      PrefixStep(InitialState, trace, 2);
    }
    assert s4 == State(b, Loaded(ra), Catalog) by {
      PrefixStep(InitialState, trace, 3);
      assert trace[..4] == trace;
    }
    DetailView(s3);
    DetailView(s4);
  }

  /**
   * A second card whose selection delay ends after the first rover's reply
   * has arrived fetches nothing: `data` is still loaded, so the section shows
   * the first rover's reply under the second rover's selection.
   */
  lemma LateSelection(a: string, b: string, ra: Payload)
    requires a in Catalog && b in Catalog
    requires ReplySafe(ra)
    ensures var trace := [Select(a), Arrived(ra), Select(b)];
      RoverData(Run(InitialState, trace[..1])) == View("", Some("/" + a)) &&
      RoverData(Run(InitialState, trace[..2])).View? &&
      ParseDetail(RoverData(Run(InitialState, trace[..2])).html) == Some(DetailOf(ra)) &&
      Run(InitialState, trace) == State(b, Loaded(ra), Catalog) &&
      RoverData(Run(InitialState, trace)).View? && RoverData(Run(InitialState, trace)).fetch == None &&
      ParseDetail(RoverData(Run(InitialState, trace)).html) == Some(DetailOf(ra))
  {
    var trace := [Select(a), Arrived(ra), Select(b)];
    assert a != "" && b != "";
    var s1 := Run(InitialState, trace[..1]);
    var s2 := Run(InitialState, trace[..2]);
    var s3 := Run(InitialState, trace);
    assert s1 == State(a, NoData, Catalog) by {
      assert trace[..0] == [];
      PrefixStep(InitialState, trace, 0);
    }
    assert s2 == State(a, Loaded(ra), Catalog) by {
      PrefixStep(InitialState, trace, 1);
    }
    assert s3 == State(b, Loaded(ra), Catalog) by {
      PrefixStep(InitialState, trace, 2);
      assert trace[..3] == trace;
    }
    DetailView(s2);
    DetailView(s3);
  }

  /**
   * A reply with no photos is stored, but every render of it throws, so the
   * page keeps what it showed before and no further fetch is made.
   */
  lemma EmptyReplyThrows(rover: string)
    requires rover != ""
    ensures App(Step(Step(InitialState, Select(rover)), Arrived(Payload([])))).Threw?
  {
  }

  /**
   * The store object driven through one rover's visit: the first render and
   * the selection, the reply, then back. Exactly one fetch is made, for the
   * selected rover; while it is pending the section is empty; back restores
   * the initial store and its page. This holds for a reply without photos
   * too: its render throws and leaves the page as it was, and the store is
   * restored by back all the same.
   */
  method SelectionFetchesOnce(rover: string, reply: Payload)
    returns (pending: string, fetched: seq<string>, final: State, finalPage: string)
    requires rover != ""
    ensures pending == AppOpen + AppClose
    ensures fetched == ["/" + rover]
    ensures final == InitialState
    ensures finalPage == App(InitialState).html
  {
    var store := new Store();
    store.Render();
    assert store.fetched == [];
    store.Dispatch(Select(rover));
    assert store.Snapshot() == State(rover, NoData, Catalog);
    pending := store.page;
    store.Dispatch(Arrived(reply));
    assert store.Snapshot() == State(rover, Loaded(reply), Catalog);
    store.Dispatch(Back);
    fetched, final, finalPage := store.fetched, store.Snapshot(), store.page;
  }
}
