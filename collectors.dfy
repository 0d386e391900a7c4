/**
 * The card-trading collectors of the Actors page: `RiskyCollector` (a class)
 * and `SafeCollector` (an actor). Each owns a deck of cards, a set of
 * strings, and can send one of its cards to another collector.
 *
 * Only executions in which calls run one after another are modelled: this is
 * the behaviour actor isolation guarantees for `SafeCollector`, and the
 * behaviour `RiskyCollector` shows when its calls do not overlap. Swift's
 * `Set` is a value type, so each collector's deck is a `set<string>` value
 * and no two decks are ever shared.
 */
module Collectors {
  import opened Wrappers

  /** What `Set.remove` yields: the removed member if it was present, and the remaining deck. */
  function Remove(deck: set<string>, card: string): (r: (Option<string>, set<string>))
    ensures r.0.Some? <==> card in deck
    ensures r.0.Some? ==> r.0.value == card
    ensures card !in r.1 && r.1 <= deck && deck <= r.1 + {card}
  {
    (if card in deck then Some(card) else None, deck - {card})
  }

  /** What `Set.insert` leaves behind: the card is present and nothing else is added or lost. */
  function Insert(deck: set<string>, card: string): (r: set<string>)
    ensures card in r && deck <= r
    ensures forall c :: c in r ==> c == card || c in deck
  {
    deck + {card}
  }

  /** Inserting a card twice leaves the same deck as inserting it once. */
  lemma InsertIdempotent(deck: set<string>, card: string)
    ensures Insert(Insert(deck, card), card) == Insert(deck, card)
  {
  }

  /** The outcome of one trade between two distinct collectors. */
  datatype Trade = Trade(ok: bool, sender: set<string>, receiver: set<string>)

  /**
   * One `send(card:to:)` between two distinct collectors, run on its own:
   * the trade happens exactly when the sender holds the card; then the card
   * moves from one deck to the other and every other card stays where it was.
   */
  function Exchange(sender: set<string>, receiver: set<string>, card: string): (t: Trade)
    ensures t.ok <==> card in sender
    ensures !t.ok ==> t.sender == sender && t.receiver == receiver
    ensures t.ok ==> card !in t.sender && card in t.receiver
    ensures forall c :: c != card ==> (c in t.sender <==> c in sender)
    ensures forall c :: c != card ==> (c in t.receiver <==> c in receiver)
    ensures t.sender + t.receiver == sender + receiver
    ensures sender !! receiver ==> t.sender !! t.receiver
  {
    if card !in sender then Trade(false, sender, receiver)
    else Trade(true, Remove(sender, card).1, Insert(receiver, card))
  }

  /**
   * Between disjoint decks no card is duplicated or lost: the two decks hold
   * as many cards after a trade as before it.
   */
  lemma ExchangeConservesCount(sender: set<string>, receiver: set<string>, card: string)
    requires sender !! receiver
    ensures var t := Exchange(sender, receiver, card);
      |t.sender| + |t.receiver| == |sender| + |receiver|
  {
  }

  class RiskyCollector {
    const name: string
    var deck: set<string>

    constructor (name: string, deck: set<string>)
      ensures this.name == name && this.deck == deck
    {
      this.deck := deck;
      this.name := name;
    }

    /**
     * Sends `selected` to `person`. Between two distinct collectors the
     * decks change as `Exchange` says; sent to itself, a collector removes
     * the card and puts it back, so its deck ends as it began.
     */
    method Send(selected: string, person: RiskyCollector) returns (didTransfer: bool)
      modifies this, person
      ensures didTransfer <==> selected in old(deck)
      ensures person != this ==>
        Exchange(old(deck), old(person.deck), selected) == Trade(didTransfer, deck, person.deck)
      ensures person == this ==> deck == old(deck)
    {
      didTransfer := false;
      if selected !in deck {
        return false;
      }
      var removal := Remove(deck, selected);
      deck := removal.1;
      if removal.0.Some? {
        didTransfer := true;
      } else {
        // "The deck is was wrong": unreachable when calls do not overlap.
        assert false;
        didTransfer := false;
      }
      person.Transfer(selected);
    }

    /** Adds `card` to this collector's deck. */
    method Transfer(card: string)
      modifies this
      ensures deck == Insert(old(deck), card)
    {
      deck := Insert(deck, card);
    }
  }

  class SafeCollector {
    var deck: set<string>
    const name: string

    constructor (name: string, deck: set<string>)
      ensures this.name == name && this.deck == deck
    {
      this.deck := deck;
      this.name := name;
    }

    /**
     * Sends `selected` to `person`. The actor runs this call to completion
     * before any other on the same collector, so it behaves as `Exchange`
     * between two distinct collectors, and leaves the deck as it was when
     * a collector sends to itself.
     */
    method Send(selected: string, person: SafeCollector) returns (didTransfer: bool)
      modifies this, person
      ensures didTransfer <==> selected in old(deck)
      ensures person != this ==>
        Exchange(old(deck), old(person.deck), selected) == Trade(didTransfer, deck, person.deck)
      ensures person == this ==> deck == old(deck)
    {
      didTransfer := false;
      if selected !in deck {
        return false;
      }
      var removal := Remove(deck, selected);
      deck := removal.1;
      if removal.0.Some? {
        didTransfer := true;
      } else {
        // "The deck is was wrong": unreachable under actor isolation.
        assert false;
        didTransfer := false;
      }
      person.Transfer(selected);
    }

    /** Adds `card` to this collector's deck. */
    method Transfer(card: string)
      modifies this
      ensures deck == Insert(old(deck), card)
    {
      deck := Insert(deck, card);
    }

    /** A `nonisolated` member: one fixed string, depending on no collector state. */
    function StaticData(): (s: string)
      ensures s == "data that never changes"
    {
      "data that never changes"
    }
  }

  /**
   * The demonstration with safe collectors: Sam holds four cards, Tim and
   * Adam none, and two tasks each ask Sam to send "car", one to Tim and one
   * to Adam. The actor runs the two calls one after the other, in an order
   * the model leaves open (`timFirst`): the first succeeds, the second finds
   * the card gone, and exactly one of Tim and Adam ends holding it.
   */
  method SafeScenario(timFirst: bool)
    returns (timGot: bool, adamGot: bool, samDeck: set<string>, timDeck: set<string>, adamDeck: set<string>)
    ensures timGot == timFirst && adamGot == !timFirst
    ensures samDeck == {"boat", "plane", "house"}
    ensures timGot ==> timDeck == {"car"} && adamDeck == {}
    ensures adamGot ==> adamDeck == {"car"} && timDeck == {}
  {
    var deck: set<string> := {"car", "boat", "plane", "house"};
    var emptyDeck: set<string> := {};
    var samSafe := new SafeCollector("safeSam", deck);
    var timSafe := new SafeCollector("safeTim", emptyDeck);
    var adamSafe := new SafeCollector("safeAdam", emptyDeck);
    if timFirst {
      timGot := samSafe.Send("car", timSafe);
      adamGot := samSafe.Send("car", adamSafe);
    } else {
      adamGot := samSafe.Send("car", adamSafe);
      timGot := samSafe.Send("car", timSafe);
    }
    samDeck, timDeck, adamDeck := samSafe.deck, timSafe.deck, adamSafe.deck;
  }

  /**
   * The same demonstration with risky collectors, when the second send
   * starts only after the first has finished (the pause the page suggests
   * between the two dispatches): Tim gets the car and Adam does not.
   */
  method RiskyScenario()
    returns (timGot: bool, adamGot: bool, samDeck: set<string>, timDeck: set<string>, adamDeck: set<string>)
    ensures timGot && !adamGot
    ensures samDeck == {"boat", "plane", "house"}
    ensures timDeck == {"car"} && adamDeck == {}
  {
    var deck: set<string> := {"car", "boat", "plane", "house"};
    var emptyDeck: set<string> := {};
    var sam := new RiskyCollector("Sam", deck);
    var tim := new RiskyCollector("Tim", emptyDeck);
    var adam := new RiskyCollector("adam", emptyDeck);
    timGot := sam.Send("car", tim);
    adamGot := sam.Send("car", adam);
    samDeck, timDeck, adamDeck := sam.deck, tim.deck, adam.deck;
  }
}
