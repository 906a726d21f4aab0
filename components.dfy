/**
 * The page's components: the rover cards and photo elements, the section
 * renderer `RoverData` (a three-way decision on the store) and the root
 * template `App`.
 *
 * Markup keeps the tags, classes, handlers and interpolated values of the
 * page's template literals and drops their indentation. Each kind of
 * markup has a reader beside it (`ParseCards`, `ParsePhotos`, `ParseDetail`),
 * and the lemmas at the end state what a page shows as "reading the page
 * back gives these values".
 */
module Components {
  import opened Wrappers
  import opened Markup
  import opened AppState

  // ------------------------------------------------------------ rover cards

  const CardStart: string := "<button class=\"rover-card\" onclick=\"setTimeout(storeUpdate, 3000, {roverSelected: '"
  const CardMiddle: string := "'})\"><h2 class=\"card-title\">"
  const CardEnd: string := "</h2></button>"

  /** `roverCardMaker`: a button that selects `rover` and is titled with it. */
  function RoverCard(rover: string): (r: string)
    ensures CardStart <= r
    ensures |r| == |CardStart| + |CardMiddle| + |CardEnd| + 2 * |rover|
    ensures r[|CardStart|..|CardStart| + |rover|] == rover            // the rover the handler selects
    ensures r[|r| - |CardEnd| - |rover|..|r| - |CardEnd|] == rover   // the title
  {
    var r := CardStart + rover + CardMiddle + rover + CardEnd;
    assert r[..|CardStart|] == CardStart;
    r
  }

  /** What a reader of a card sees: the rover its handler selects, and its title. */
  datatype Card = Card(selects: string, title: string)

  function ParseCard(s: string): (r: Option<(Card, string)>)
    ensures r.Some? ==> |r.value.1| < |s|
  {
    var r1 :- Expect(CardStart, s);
    var (selects, r2) := Until(r1, '\'');
    var r3 :- Expect(CardMiddle, r2);
    var (title, r4) := Until(r3, '<');
    var r5 :- Expect(CardEnd, r4);
    Some((Card(selects, title), r5))
  }

  /** Reads cards from the front of `s` for as long as there are any. */
  function ParseCards(s: string): (r: (seq<Card>, string))
    decreases |s|
  {
    match ParseCard(s)
    case None => ([], s)
    case Some((card, rest)) =>
      var (cards, t) := ParseCards(rest);
      ([card] + cards, t)
  }

  /** Reads a `rover-container` div that holds nothing but cards. */
  function ParseRoverList(html: string): Option<seq<Card>>
  {
    var inner :- Inside(DivOpen("rover-container"), DivClose, html);
    var (cards, rest) := ParseCards(inner);
    if rest == "" then Some(cards) else None
  }

  /** A name the card markup can carry: it cannot end the handler's quote or the title. */
  predicate CardSafe(rover: string)
  {
    '\'' !in rover && '<' !in rover
  }

  function SelfCard(rover: string): Card
  {
    Card(rover, rover)
  }

  // --------------------------------------------------------- photo elements

  const PhotoStart: string := "<img class=\"photo\" src=\""
  /** The alt text reads `state.selectedRover`, a field the store never has. */
  const PhotoEnd: string := "\" alt=\"Photo taken on Mars by undefined\"/>"

  /** `photoElementMakerFunction`: an image whose source is `url`. */
  function PhotoElement(url: string): (r: string)
    ensures PhotoStart <= r
    ensures |r| == |PhotoStart| + |url| + |PhotoEnd|
    ensures r[|PhotoStart|..|PhotoStart| + |url|] == url   // the `src` attribute's value
  {
    var r := PhotoStart + url + PhotoEnd;
    assert r[..|PhotoStart|] == PhotoStart;
    r
  }

  function ParsePhoto(s: string): (r: Option<(string, string)>)
    ensures r.Some? ==> |r.value.1| < |s|
  {
    var r1 :- Expect(PhotoStart, s);
    var (url, r2) := Until(r1, '"');
    var r3 :- Expect(PhotoEnd, r2);
    Some((url, r3))
  }

  /** Reads image elements from the front of `s`, giving their sources. */
  function ParsePhotos(s: string): (r: (seq<string>, string))
    decreases |s|
  {
    match ParsePhoto(s)
    case None => ([], s)
    case Some((url, rest)) =>
      var (urls, t) := ParsePhotos(rest);
      ([url] + urls, t)
  }

  /** `photo => photo.img_src` */
  function PhotoUrl(photo: Photo): string
  {
    photo.imgSrc
  }

  // ------------------------------------------------------------ detail view

  const InfoName: string := "<ul class=\"info-container\"><li>Name of the Rover: "
  const InfoLaunch: string := "</li><li>Date of Launch from Earth: "
  const InfoLanding: string := "</li><li>Date of Landing on Mars: "
  const InfoStatus: string := "</li><li>Status of the Mission: "
  const InfoTaken: string := "</li><li>Photos taken by "
  const InfoClose: string := "</li></ul>"

  /** Both back buttons run `storeUpdate({roverSelected: '', data: ''})`, the `Back` action. */
  const BackButton: string := "<button onclick=\"storeUpdate({roverSelected: '', data: ''})\" class=\"back-button\">Back</button>"

  /** The mission facts of `photos[0].rover` and the date of `photos[0]`. */
  function InfoList(info: RoverInfo, date: string): (r: string)
    ensures InfoName + info.name <= r
    ensures |date + InfoClose| <= |r| && r[|r| - |date + InfoClose|..] == date + InfoClose
  {
    InfoName + (info.name + (InfoLaunch + (info.launchDate + (InfoLanding + (info.landingDate
      + (InfoStatus + (info.status + (InfoTaken + info.name + " : " + (date + InfoClose)))))))))
  }

  /** What a reader of the detail view sees. */
  datatype Detail = Detail(info: RoverInfo, date: string, photos: seq<string>)

  /** Reads an info list from the front of `s`. */
  function ParseInfo(s: string): Option<(RoverInfo, string, string)>
  {
    var r1 :- Expect(InfoName, s);
    var (name, r2) := Until(r1, '<');
    var r3 :- Expect(InfoLaunch, r2);
    var (launch, r4) := Until(r3, '<');
    var r5 :- Expect(InfoLanding, r4);
    var (landing, r6) := Until(r5, '<');
    var r7 :- Expect(InfoStatus, r6);
    var (status, r8) := Until(r7, '<');
    var r9 :- Expect(InfoTaken + name + " : ", r8);
    var (date, r10) := Until(r9, '<');
    var r11 :- Expect(InfoClose, r10);
    Some((RoverInfo(name, launch, landing, status), date, r11))
  }

  /** Reads the detail view: info list, back button, photo grid, back button. */
  function ParseDetail(html: string): Option<Detail>
  {
    var info :- ParseInfo(html);
    var r1 :- Expect(BackButton + DivOpen("photo-container"), info.2);
    var (urls, r2) := ParsePhotos(r1);
    var r3 :- Expect(DivClose + BackButton, r2);
    if r3 == "" then Some(Detail(info.0, info.1, urls)) else None
  }

  /** Values the info list can carry: none of them can close its `<li>`. */
  predicate InfoSafe(info: RoverInfo, date: string)
  {
    '<' !in info.name && '<' !in info.launchDate && '<' !in info.landingDate
    && '<' !in info.status && '<' !in date
  }

  /** A source the image tag can carry: it cannot close the `src` attribute. */
  predicate UrlSafe(url: string)
  {
    '"' !in url
  }

  /** A reply the detail view can show and that reads back intact. */
  predicate ReplySafe(reply: Payload)
  {
    |reply.photos| > 0 && InfoSafe(reply.photos[0].rover, reply.photos[0].earthDate)
    && forall i :: 0 <= i < |reply.photos| ==> UrlSafe(reply.photos[i].imgSrc)
  }

  /** What the detail view of a reply should show. */
  function DetailOf(reply: Payload): Detail
    requires |reply.photos| > 0
  {
    Detail(reply.photos[0].rover, reply.photos[0].earthDate, MapSeq(reply.photos, PhotoUrl))
  }

  // --------------------------------------------------------------- RoverData

  /** The outcome of rendering: markup plus at most one fetch to issue, or an exception. */
  datatype View =
    | View(html: string, fetch: Option<string>)
    | Threw  // `photos[0].earth_date` on an empty photo list raises a TypeError

  /** `getRoverData`: the path it fetches. */
  function RoverPath(state: State): (r: string)
    ensures |r| == |state.roverSelected| + 1 && r[0] == '/' && r[1..] == state.roverSelected
  {
    "/" + state.roverSelected
  }

  /** `RoverData` */
  function RoverData(state: State): (r: View)
    ensures r.Threw? <==>
      state.roverSelected != "" && state.data.Loaded? && |state.data.payload.photos| == 0
    ensures r.View? && r.fetch.Some? <==> state.roverSelected != "" && state.data == NoData
    ensures r.View? && r.fetch.Some? ==> r.fetch.value == "/" + state.roverSelected && r.html == ""
  {
    if state.roverSelected == "" then
      View(WrappingDiv("rover-container", JoinMap<string>, state.rovers, RoverCard), None)
    else if state.data == NoData then
      View("", Some(RoverPath(state)))
    else
      var photos := state.data.payload.photos;
      var photoUrls := MapSeq(photos, PhotoUrl);
      if |photos| == 0 then Threw
      else
        View(InfoList(photos[0].rover, photos[0].earthDate) + BackButton
             + WrappingDiv("photo-container", JoinMap<string>, photoUrls, PhotoElement)
             + BackButton, None)
  }

  // --------------------------------------------------------------------- App

  const AppOpen: string := "<header><h2>Simple Mars Rover Dashboard</h2></header><main><section>"
  const AppClose: string := "</section></main><footer><h3><u>Fact: </u> <i>Mars is the only planet solely inhabited by robots!!</i></h3></footer>"

  /** `App`: the section's markup inside the static page, with the section's fetch. */
  function App(state: State): (r: View)
    ensures r.Threw? <==> RoverData(state).Threw?
    ensures r.View? ==> r.fetch == RoverData(state).fetch
    ensures r.View? ==> Inside(AppOpen, AppClose, r.html) == Some(RoverData(state).html)
  {
    match RoverData(state)
    case Threw => Threw
    case View(section, fetch) =>
      InsideEnclosed(AppOpen, section, AppClose);
      View(AppOpen + section + AppClose, fetch)
  }

  // ------------------------------------------------------------------ lemmas

  lemma CardRoundTrip(rover: string, t: string)
    requires CardSafe(rover)
    ensures ParseCard(RoverCard(rover) + t) == Some((SelfCard(rover), t))
  {
    var r4 := CardEnd + t;
    var r3 := rover + r4;
    var r2 := CardMiddle + r3;
    var r1 := rover + r2;
    var c := CardStart + rover;
    assert RoverCard(rover) == c + CardMiddle + rover + CardEnd;
    Regroup(c + CardMiddle + rover, CardEnd, t);
    Regroup(c + CardMiddle, rover, r4);
    Regroup(c, CardMiddle, r3);
    Regroup(CardStart, rover, r2);
    ExpectPrefix(CardStart, r1);
    UntilSplit(rover, '\'', r2);
    ExpectPrefix(CardMiddle, r3);
    UntilSplit(rover, '<', r4);
    ExpectPrefix(CardEnd, t);
  }

  /** One more card in front of a list that reads back correctly. */
  lemma CardsCons(rovers: seq<string>, t: string)
    requires |rovers| > 0 && CardSafe(rovers[0])
    requires ParseCards(JoinMap(rovers[1..], RoverCard) + t) == (MapSeq(rovers[1..], SelfCard), t)
    ensures ParseCards(JoinMap(rovers, RoverCard) + t) == (MapSeq(rovers, SelfCard), t)
  {
    var rest := JoinMap(rovers[1..], RoverCard) + t;
    JoinMapConsThen(rovers, RoverCard, t);
    CardRoundTrip(rovers[0], rest);
    assert MapSeq(rovers, SelfCard) == [SelfCard(rovers[0])] + MapSeq(rovers[1..], SelfCard);
  }

  /** The cards of a list, read back, are one card per rover in list order. */
  lemma {:induction false} CardsRoundTrip(rovers: seq<string>, t: string)
    requires forall i :: 0 <= i < |rovers| ==> CardSafe(rovers[i])
    requires ParseCard(t) == None
    ensures ParseCards(JoinMap(rovers, RoverCard) + t) == (MapSeq(rovers, SelfCard), t)
  {
    if rovers == [] {
      assert JoinMap(rovers, RoverCard) + t == t;
    } else {
      CardsRoundTrip(rovers[1..], t);
      CardsCons(rovers, t);
    }
  }

  lemma PhotoRoundTrip(url: string, t: string)
    requires UrlSafe(url)
    ensures ParsePhoto(PhotoElement(url) + t) == Some((url, t))
  {
    var r2 := PhotoEnd + t;
    var r1 := url + r2;
    assert PhotoElement(url) + t == PhotoStart + r1;
    ExpectPrefix(PhotoStart, r1);
    UntilSplit(url, '"', r2);
    ExpectPrefix(PhotoEnd, t);
  }

  /** One more image in front of a grid that reads back correctly. */
  lemma PhotosCons(urls: seq<string>, t: string)
    requires |urls| > 0 && UrlSafe(urls[0])
    requires ParsePhotos(JoinMap(urls[1..], PhotoElement) + t) == (urls[1..], t)
    ensures ParsePhotos(JoinMap(urls, PhotoElement) + t) == (urls, t)
  {
    var rest := JoinMap(urls[1..], PhotoElement) + t;
    JoinMapConsThen(urls, PhotoElement, t);
    PhotoRoundTrip(urls[0], rest);
    assert [urls[0]] + urls[1..] == urls;
  }

  /** The image elements of a grid, read back, are the sources in list order. */
  lemma {:induction false} PhotosRoundTrip(urls: seq<string>, t: string)
    requires forall i :: 0 <= i < |urls| ==> UrlSafe(urls[i])
    requires ParsePhoto(t) == None
    ensures ParsePhotos(JoinMap(urls, PhotoElement) + t) == (urls, t)
  {
    if urls == [] {
      assert JoinMap(urls, PhotoElement) + t == t;
    } else {
      PhotosRoundTrip(urls[1..], t);
      PhotosCons(urls, t);
    }
  }

  /**
   * With no rover selected, the section is a `rover-container` div holding
   * exactly one card per rover of the store, in list order, each selecting
   * and titled with that rover; nothing is fetched.
   */
  lemma RoverListView(state: State)
    requires state.roverSelected == ""
    requires forall i :: 0 <= i < |state.rovers| ==> CardSafe(state.rovers[i])
    ensures RoverData(state).View? && RoverData(state).fetch == None
    ensures ParseRoverList(RoverData(state).html) == Some(MapSeq(state.rovers, SelfCard))
  {
    var inner := JoinMap(state.rovers, RoverCard);
    assert ParseCard("") == None;
    assert inner + "" == inner;
    CardsRoundTrip(state.rovers, "");
  }

  /** The text after a photo grid does not read as one more photo. */
  lemma GridEndIsNoPhoto()
    ensures ParsePhoto(DivClose + BackButton) == None
  {
    var t := DivClose + BackButton;
    assert t[1] == '/';
    assert !(PhotoStart <= t) by {
      assert PhotoStart[1] == 'i';
    }
  }

  /** The info list, read back, gives the mission facts and the date it was made from. */
  lemma InfoRoundTrip(info: RoverInfo, date: string, t: string)
    requires InfoSafe(info, date)
    ensures ParseInfo(InfoList(info, date) + t) == Some((info, date, t))
  {
    var r10 := InfoClose + t;
    var r9 := date + r10;
    var r8 := InfoTaken + info.name + " : " + r9;
    var r7 := info.status + r8;
    var r6 := InfoStatus + r7;
    var r5 := info.landingDate + r6;
    var r4 := InfoLanding + r5;
    var r3 := info.launchDate + r4;
    var r2 := InfoLaunch + r3;
    var r1 := info.name + r2;
    var q9 := date + InfoClose;
    var q8 := InfoTaken + info.name + " : " + q9;
    var q7 := info.status + q8;
    var q6 := InfoStatus + q7;
    var q5 := info.landingDate + q6;
    var q4 := InfoLanding + q5;
    var q3 := info.launchDate + q4;
    var q2 := InfoLaunch + q3;
    var q1 := info.name + q2;
    Regroup(date, InfoClose, t);
    Regroup(InfoTaken + info.name + " : ", q9, t);
    Regroup(info.status, q8, t);
    Regroup(InfoStatus, q7, t);
    Regroup(info.landingDate, q6, t);
    Regroup(InfoLanding, q5, t);
    Regroup(info.launchDate, q4, t);
    Regroup(InfoLaunch, q3, t);
    Regroup(info.name, q2, t);
    Regroup(InfoName, q1, t);
    ExpectPrefix(InfoName, r1);
    UntilSplit(info.name, '<', r2);
    ExpectPrefix(InfoLaunch, r3);
    UntilSplit(info.launchDate, '<', r4);
    ExpectPrefix(InfoLanding, r5);
    UntilSplit(info.landingDate, '<', r6);
    ExpectPrefix(InfoStatus, r7);
    UntilSplit(info.status, '<', r8);
    ExpectPrefix(InfoTaken + info.name + " : ", r9);
    UntilSplit(date, '<', r10);
    ExpectPrefix(InfoClose, t);
  }

  /**
   * With data present, the section shows the mission facts of the first
   * photo's rover and the first photo's date once, then a `photo-container`
   * div with exactly one image per photo, in payload order, each showing that
   * photo's `img_src`, between two back buttons; nothing is fetched.
   */
  lemma DetailView(state: State)
    requires state.roverSelected != "" && state.data.Loaded?
    requires |state.data.payload.photos| > 0
    requires InfoSafe(state.data.payload.photos[0].rover, state.data.payload.photos[0].earthDate)
    requires forall i :: 0 <= i < |state.data.payload.photos| ==> UrlSafe(state.data.payload.photos[i].imgSrc)
    ensures RoverData(state).View? && RoverData(state).fetch == None
    ensures var photos := state.data.payload.photos;
      ParseDetail(RoverData(state).html) ==
      Some(Detail(photos[0].rover, photos[0].earthDate, MapSeq(photos, PhotoUrl)))
  {
    var photos := state.data.payload.photos;
    var info, date, urls := photos[0].rover, photos[0].earthDate, MapSeq(photos, PhotoUrl);
    var r3 := DivClose + BackButton;
    var r2 := JoinMap(urls, PhotoElement) + r3;
    var r1 := BackButton + DivOpen("photo-container") + r2;
    var grid := WrappingDiv("photo-container", JoinMap<string>, urls, PhotoElement);
    assert grid == DivOpen("photo-container") + JoinMap(urls, PhotoElement) + DivClose;
    assert RoverData(state).html == InfoList(info, date) + BackButton + grid + BackButton;
    Regroup(InfoList(info, date) + BackButton, grid, BackButton);
    Regroup(InfoList(info, date), BackButton, grid + BackButton);
    Regroup(DivOpen("photo-container") + JoinMap(urls, PhotoElement), DivClose, BackButton);
    Regroup(DivOpen("photo-container"), JoinMap(urls, PhotoElement), r3);
    Regroup(BackButton, DivOpen("photo-container"), r2);
    InfoRoundTrip(info, date, r1);
    ExpectPrefix(BackButton + DivOpen("photo-container"), r2);
    GridEndIsNoPhoto();
    PhotosRoundTrip(urls, r3);
    assert r3 == DivClose + BackButton + "";
    ExpectPrefix(DivClose + BackButton, "");
  }
}
