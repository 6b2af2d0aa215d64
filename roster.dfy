/** The pure part of the roster view: what one activities snapshot renders to.
    A card is a record of what the page shows, not the markup itself. */
module Roster {
  import opened Optional

  /** The fields of one activity in the body of GET /activities. */
  datatype Details = Details(
    description: string,
    schedule: string,
    maxParticipants: int,
    participants: seq<string>)

  /** One `[name, details]` pair of `Object.entries(activities)`, in entry order.
      `details` is None when the value carries no participants array, so that
      reading the length of its participants throws. */
  datatype Entry = Entry(name: string, details: Option<Details>)

  /** One line of a participants list: the email and whether a delete button follows it. */
  datatype Participant = Participant(email: string, deleteButton: bool)

  /** The participants part of a card: the "No participants yet" notice, or the list. */
  datatype ParticipantsView = NoParticipantsYet | Listed(items: seq<Participant>)

  datatype Card = Card(
    name: string,
    description: string,
    schedule: string,
    spotsLeft: int,
    participants: ParticipantsView)

  /** Remaining capacity as the page computes it: not clamped, negative when overfull. */
  function SpotsLeft(d: Details): (r: int)
    ensures r + |d.participants| == d.maxParticipants
    ensures r < 0 <==> |d.participants| > d.maxParticipants
  {
    d.maxParticipants - |d.participants|
  }

  /** The `participants.map(...)` of a card: one line per email, in order, each with a
      delete button exactly when the page is authenticated. */
  function ParticipantItems(emails: seq<string>, authenticated: bool): (r: seq<Participant>)
    ensures |r| == |emails|
    ensures forall i :: 0 <= i < |r| ==> r[i].email == emails[i] && r[i].deleteButton == authenticated
  {
    if emails == [] then []
    else [Participant(emails[0], authenticated)] + ParticipantItems(emails[1..], authenticated)
  }

  function RenderParticipants(emails: seq<string>, authenticated: bool): ParticipantsView
  {
    if |emails| > 0 then Listed(ParticipantItems(emails, authenticated)) else NoParticipantsYet
  }

  function RenderCard(name: string, d: Details, authenticated: bool): (c: Card)
    ensures c.name == name && c.description == d.description && c.schedule == d.schedule
    ensures c.spotsLeft == SpotsLeft(d)
    ensures c.participants.NoParticipantsYet? <==> |d.participants| == 0
    ensures c.participants.Listed? ==>
              |c.participants.items| == |d.participants| &&
              forall j :: 0 <= j < |d.participants| ==>
                c.participants.items[j].email == d.participants[j] &&
                c.participants.items[j].deleteButton == authenticated
  {
    Card(name, d.description, d.schedule, SpotsLeft(d), RenderParticipants(d.participants, authenticated))
  }

  /** Every entry can be rendered without throwing. */
  predicate WellFormed(es: seq<Entry>)
  {
    forall i :: 0 <= i < |es| ==> es[i].details.Some?
  }

  /** Object keys are unique, so the entries of one body have distinct names. */
  predicate DistinctNames(es: seq<Entry>)
  {
    forall i, j :: 0 <= i < j < |es| ==> es[i].name != es[j].name
  }

  /** The cards appended by the `forEach`, one per entry, built from the back
      the way each iteration appends one card. */
  function RenderCards(es: seq<Entry>, authenticated: bool): (r: seq<Card>)
    requires WellFormed(es)
    ensures |r| == |es|
  {
    if es == [] then []
    else
      var last := es[|es| - 1];
      RenderCards(es[..|es| - 1], authenticated) + [RenderCard(last.name, last.details.value, authenticated)]
  }

  /** The option values appended to the activity select, one per entry. */
  function Names(es: seq<Entry>): (r: seq<string>)
    ensures |r| == |es|
  {
    if es == [] then [] else Names(es[..|es| - 1]) + [es[|es| - 1].name]
  }

  /** The position at which rendering throws: the first entry without details,
      or |es| when there is none. */
  function FirstMalformed(es: seq<Entry>): (k: nat)
    ensures k <= |es|
    ensures WellFormed(es[..k])
    ensures k < |es| ==> es[k].details.None?
  {
    if es == [] || es[0].details.None? then 0
    else
      var k := FirstMalformed(es[1..]);
      assert es[..k + 1] == [es[0]] + es[1..][..k];
      k + 1
  }

  /** Where a well-formed prefix ends the entries rendered: that is where rendering throws. */
  lemma FirstMalformedAt(es: seq<Entry>, i: nat)
    requires i <= |es| && WellFormed(es[..i])
    requires i < |es| ==> es[i].details.None?
    ensures FirstMalformed(es) == i
  {
    var k := FirstMalformed(es);
    assert forall j :: 0 <= j < i ==> es[..i][j] == es[j];
    assert forall j :: 0 <= j < k ==> es[..k][j] == es[j];
  }
  /** `k` copies of `xs`, one after the other. */
  function Repeat<T>(xs: seq<T>, k: nat): seq<T>
  {
    if k == 0 then [] else Repeat(xs, k - 1) + xs
  }

  /** The i-th card is rendered from the i-th entry alone. */
  lemma {:induction false} RenderCardsAt(es: seq<Entry>, authenticated: bool, i: nat)
    requires WellFormed(es) && i < |es|
    ensures |RenderCards(es, authenticated)| == |es|
    ensures RenderCards(es, authenticated)[i] == RenderCard(es[i].name, es[i].details.value, authenticated)
  {
    var init := es[..|es| - 1];
    assert WellFormed(init);
    if i < |es| - 1 {
      RenderCardsAt(init, authenticated, i);
    } else if |init| > 0 {
      RenderCardsAt(init, authenticated, 0);
    }
  }

  /** Rendering one more well-formed entry appends its card and its option. */
  lemma RenderStep(es: seq<Entry>, i: nat, authenticated: bool)
    requires i < |es| && WellFormed(es[..i]) && es[i].details.Some?
    ensures WellFormed(es[..i + 1])
    ensures RenderCards(es[..i + 1], authenticated)
            == RenderCards(es[..i], authenticated) + [RenderCard(es[i].name, es[i].details.value, authenticated)]
    ensures Names(es[..i + 1]) == Names(es[..i]) + [es[i].name]
  {
    assert es[..i + 1][..i] == es[..i];
  }

  /** The i-th option is the i-th entry's name. */
  lemma {:induction false} NamesAt(es: seq<Entry>, i: nat)
    requires i < |es|
    ensures |Names(es)| == |es| && Names(es)[i] == es[i].name
  {
    if i < |es| - 1 {
      NamesAt(es[..|es| - 1], i);
    } else if |es| > 1 {
      NamesAt(es[..|es| - 1], 0);
    }
  }

  /** What the i-th card shows: the entry's name, description and schedule,
      the unclamped remaining capacity, the "No participants yet" notice exactly
      when nobody is enrolled, and otherwise every participant in order, each
      with a delete button if and only if the page was authenticated. */
  lemma RosterCard(es: seq<Entry>, authenticated: bool, i: nat)
    requires WellFormed(es) && i < |es|
    ensures |RenderCards(es, authenticated)| == |es|
    ensures var c := RenderCards(es, authenticated)[i];
            var d := es[i].details.value;
            && c.name == es[i].name
            && c.description == d.description
            && c.schedule == d.schedule
            && c.spotsLeft == d.maxParticipants - |d.participants|
            && (c.participants.NoParticipantsYet? <==> |d.participants| == 0)
            && (c.participants.Listed? ==>
                  |c.participants.items| == |d.participants| &&
                  forall j :: 0 <= j < |d.participants| ==>
                    c.participants.items[j].email == d.participants[j] &&
                    (c.participants.items[j].deleteButton <==> authenticated))
  {
    RenderCardsAt(es, authenticated, i);
  }

  /** The card list holds one card per entry, in entry order, and no other. */
  lemma {:induction false} CardsFollowEntries(es: seq<Entry>, authenticated: bool)
    requires WellFormed(es)
    ensures |RenderCards(es, authenticated)| == |es|
    ensures forall i :: 0 <= i < |es| ==> RenderCards(es, authenticated)[i].name == es[i].name
  {
    if es != [] {
      RenderCardsAt(es, authenticated, 0);
      forall i | 0 <= i < |es|
        ensures RenderCards(es, authenticated)[i].name == es[i].name
      {
        RenderCardsAt(es, authenticated, i);
      }
    }
  }

  /** With distinct names every name occurs once among the options of one fetch. */
  lemma {:induction false} NamesOnce(es: seq<Entry>, i: nat)
    requires DistinctNames(es) && i < |es|
    ensures multiset(Names(es))[es[i].name] == 1
  {
    var init := es[..|es| - 1];
    assert DistinctNames(init);
    if i < |es| - 1 {
      NamesOnce(init, i);
      assert es[|es| - 1].name != es[i].name;
    } else {
      NamesAbsent(init, es[i].name);
    }
  }

  lemma {:induction false} NamesAbsent(es: seq<Entry>, n: string)
    requires forall j :: 0 <= j < |es| ==> es[j].name != n
    ensures multiset(Names(es))[n] == 0
  {
    if es != [] {
      NamesAbsent(es[..|es| - 1], n);
    }
  }

  /** k copies of a sequence hold every element k times as often. */
  lemma {:induction false} RepeatCount<T>(xs: seq<T>, k: nat, x: T)
    ensures multiset(Repeat(xs, k))[x] == k * multiset(xs)[x]
  {
    if k > 0 {
      RepeatCount(xs, k - 1, x);
      assert multiset(Repeat(xs, k)) == multiset(Repeat(xs, k - 1)) + multiset(xs);
      var c := multiset(xs)[x];
      assert (k - 1) * c + c == k * c;
    }
  }
}
