/** The deck-builder page: the editing state behind the "create deck" form (a
    tag list and a list of card drafts) and the validation that turns it into
    the payload sent to the server. */
module DeckBuilder {
  import opened Wrappers
  import opened Sequences
  import opened JsText

  /** Which textarea of a card draft was edited (its `data-side` attribute). */
  datatype Side = Front | Back

  /** A card draft `{ id, front, back }` as held in the page's card list. */
  datatype Card = Card(id: string, front: string, back: string)

  /** A card as submitted: its two texts, without the draft id. */
  datatype CardContent = CardContent(front: string, back: string)

  /** The body of the deck-creation request. */
  datatype DeckPayload = DeckPayload(name: string, description: string, tags: seq<string>, cards: seq<CardContent>)

  /** Why a submission stops before any request is made. */
  datatype Rejection =
    | NameRequired        // the trimmed deck name is empty
    | NoCompleteCard      // there are cards, but none has both sides filled
    | IncompleteDeclined  // some cards are incomplete and the user did not confirm

  datatype Submission = Rejected(reason: Rejection) | Send(payload: DeckPayload)

  /** The tag list's invariant: no empty tag and no tag twice. */
  predicate TagsValid(tags: seq<string>) {
    "" !in tags && Distinct(tags)
  }

  /** The tag list with every occurrence of `name` taken out. */
  function WithoutTag(tags: seq<string>, name: string): (r: seq<string>)
    ensures name !in r
    ensures forall t :: t in r <==> t in tags && t != name
    ensures name !in tags ==> r == tags
  {
    Filter(tags, (t: string) => t != name)
  }

  /** Removing a tag keeps the list free of empty names and duplicates. */
  lemma WithoutTagKeepsValid(tags: seq<string>, name: string)
    requires TagsValid(tags)
    ensures TagsValid(WithoutTag(tags, name))
  {
    FilterKeepsDistinct(tags, (t: string) => t != name);
  }

  /** Removing a tag from a valid list cuts out exactly its one occurrence. */
  lemma WithoutTagAt(tags: seq<string>, i: int)
    requires TagsValid(tags) && 0 <= i < |tags|
    ensures WithoutTag(tags, tags[i]) == tags[..i] + tags[i + 1..]
  {
    FilterDropsOne(tags, i, (t: string) => t != tags[i]);
  }

  /** The text of one side of a card. */
  function SideText(card: Card, side: Side): string {
    match side
    case Front => card.front
    case Back => card.back
  }

  /** `card[side] = value`: the named side replaced, the id and the other side kept. */
  function WithSide(card: Card, side: Side, value: string): (r: Card)
    ensures r.id == card.id && SideText(r, side) == value
    ensures forall other :: other != side ==> SideText(r, other) == SideText(card, other)
  {
    match side
    case Front => card.(front := value)
    case Back => card.(back := value)
  }

  /** `cardsData.find(c => c.id === id)`, as the position of the first card with that id. */
  function FindCard(cards: seq<Card>, id: string): (r: Option<nat>)
    ensures r.Some? ==> r.value < |cards| && cards[r.value].id == id
    ensures r.Some? ==> forall j :: 0 <= j < r.value ==> cards[j].id != id
    ensures r.None? <==> forall j :: 0 <= j < |cards| ==> cards[j].id != id
  {
    FindIndex(cards, (c: Card) => c.id == id)
  }

  /** The card list without the cards carrying `id`. */
  function WithoutCard(cards: seq<Card>, id: string): (r: seq<Card>)
    ensures forall c :: c in r <==> c in cards && c.id != id
    ensures (forall j :: 0 <= j < |cards| ==> cards[j].id != id) ==> r == cards
  {
    Filter(cards, (c: Card) => c.id != id)
  }

  /** Deleting the one card with a given id cuts it out and keeps the rest in order. */
  lemma WithoutCardAt(cards: seq<Card>, i: int)
    requires 0 <= i < |cards|
    requires forall j :: 0 <= j < |cards| && j != i ==> cards[j].id != cards[i].id
    ensures WithoutCard(cards, cards[i].id) == cards[..i] + cards[i + 1..]
  {
    FilterDropsOne(cards, i, (c: Card) => c.id != cards[i].id);
  }

  /** A card is saved only when both trimmed sides are non-empty. */
  predicate IsComplete(card: Card) {
    Trim(card.front) != "" && Trim(card.back) != ""
  }

  /** `cardsData.filter(card => card.front.trim() && card.back.trim())`. */
  function ValidCards(cards: seq<Card>): (r: seq<Card>)
    ensures forall c :: c in r <==> c in cards && IsComplete(c)
    ensures forall i :: 0 <= i < |r| ==> IsComplete(r[i])
    ensures |r| <= |cards|
  {
    Filter(cards, (c: Card) => IsComplete(c))
  }

  /** The submitted cards: front and back exactly as typed, in list order. */
  function Contents(cards: seq<Card>): (r: seq<CardContent>)
    ensures |r| == |cards|
    ensures forall i :: 0 <= i < |r| ==> r[i] == CardContent(cards[i].front, cards[i].back)
  {
    if cards == [] then [] else [CardContent(cards[0].front, cards[0].back)] + Contents(cards[1..])
  }

  /** `input ? input.value.trim() : ''` for a form field that may be missing. */
  function FieldValue(input: Option<string>): string {
    if input.Some? then Trim(input.value) else ""
  }

  /** The page's editing state: the module-level `tags` and `cardsData` arrays. */
  class DeckEditor {
    var tags: seq<string>
    var cardsData: seq<Card>

    ghost predicate Valid()
      reads this
    {
      TagsValid(tags)
    }

    /** The page starts with no tags and one empty card draft (`addNewCard()` on load). */
    constructor (firstCardId: string)
      ensures Valid()
      ensures tags == [] && cardsData == [Card(firstCardId, "", "")]
    {
      tags := [];
      cardsData := [Card(firstCardId, "", "")];
    }

    /** `addTag`: appends a non-empty name that is not yet in the list. */
    method AddTag(tagName: string)
      requires Valid()
      modifies this
      ensures Valid() && cardsData == old(cardsData)
      ensures tags == if tagName != "" && tagName !in old(tags) then old(tags) + [tagName] else old(tags)
    {
      if tagName != "" && tagName !in tags {
        tags := tags + [tagName];
      }
    }

    /** The tag input's keydown handler. On Enter it trims the input; a blank
        input is left as it is, otherwise the trimmed name is offered to
        `AddTag` and the input is cleared, whether or not the tag was new. */
    method OnTagInputKey(key: string, inputValue: string) returns (newInputValue: string)
      requires Valid()
      modifies this
      ensures Valid() && cardsData == old(cardsData)
      ensures key != "Enter" || Blank(inputValue) ==> tags == old(tags) && newInputValue == inputValue
      ensures key == "Enter" && !Blank(inputValue) ==>
                newInputValue == "" &&
                tags == if Trim(inputValue) in old(tags) then old(tags) else old(tags) + [Trim(inputValue)]
    {
      newInputValue := inputValue;
      if key == "Enter" {
        var tagName := Trim(inputValue);
        if tagName != "" {
          AddTag(tagName);
          newInputValue := "";
        }
      }
    }

    /** `removeTag`: keeps every tag different from `tagName`, in order. */
    method RemoveTag(tagName: string)
      requires Valid()
      modifies this
      ensures Valid() && cardsData == old(cardsData)
      ensures tags == WithoutTag(old(tags), tagName)
      ensures tagName !in tags
    {
      WithoutTagKeepsValid(tags, tagName);
      tags := WithoutTag(tags, tagName);
    }

    /** `addNewCard`: appends one draft with the given (fresh) id at the end. */
    method AddNewCard(id: string, front: string, back: string)
      modifies this
      ensures tags == old(tags)
      ensures cardsData == old(cardsData) + [Card(id, front, back)]
    {
      cardsData := cardsData + [Card(id, front, back)];
    }

    /** `updateCardData`: sets one side of the first card with that id; an
        unknown id changes nothing. */
    method UpdateCardData(id: string, side: Side, value: string)
      modifies this
      ensures tags == old(tags) && |cardsData| == |old(cardsData)|
      ensures FindCard(old(cardsData), id).None? ==> cardsData == old(cardsData)
      ensures FindCard(old(cardsData), id).Some? ==>
                var k := FindCard(old(cardsData), id).value;
                cardsData == old(cardsData)[k := WithSide(old(cardsData)[k], side, value)]
    {
      var found := FindCard(cardsData, id);
      if found.Some? {
        var k := found.value;
        cardsData := cardsData[k := WithSide(cardsData[k], side, value)];
      }
    }

    /** `deleteCard`: keeps the cards whose id differs, in order. */
    method DeleteCard(id: string)
      modifies this
      ensures tags == old(tags)
      ensures cardsData == WithoutCard(old(cardsData), id)
      ensures forall j :: 0 <= j < |cardsData| ==> cardsData[j].id != id
    {
      cardsData := WithoutCard(cardsData, id);
    }

    /** The checks of `submitDeckData` up to the payload it would send.
        `confirmed` is the answer the user gives when asked whether to drop
        incomplete cards; it is consulted only in that case. */
    method SubmitDeckData(deckNameInput: Option<string>, descriptionInput: Option<string>, confirmed: bool)
      returns (outcome: Submission)
      ensures outcome == Rejected(NameRequired) <==> FieldValue(deckNameInput) == ""
      ensures outcome == Rejected(NoCompleteCard) <==>
                FieldValue(deckNameInput) != "" && cardsData != [] && ValidCards(cardsData) == []
      ensures outcome == Rejected(IncompleteDeclined) <==>
                && FieldValue(deckNameInput) != "" && ValidCards(cardsData) != []
                && |ValidCards(cardsData)| < |cardsData| && !confirmed
      ensures outcome.Send? ==>
                outcome.payload == DeckPayload(FieldValue(deckNameInput), FieldValue(descriptionInput),
                                               tags, Contents(ValidCards(cardsData)))
    {
      var deckName := FieldValue(deckNameInput);
      if deckName == "" {
        return Rejected(NameRequired);
      }
      var validCards := ValidCards(cardsData);
      if |cardsData| == 0 {
        // an empty deck is allowed
      } else if |validCards| == 0 {
        return Rejected(NoCompleteCard);
      } else if |validCards| != |cardsData| {
        if !confirmed {
          return Rejected(IncompleteDeclined);
        }
      }
      outcome := Send(DeckPayload(deckName, FieldValue(descriptionInput), tags, Contents(validCards)));
    }
  }

  /** The submitted cards keep the order in which the drafts were entered:
      the payload for drafts `a` followed by drafts `b` lists the complete
      cards of `a` before those of `b`. */
  lemma {:induction false} ValidCardsInOrder(a: seq<Card>, b: seq<Card>)
    ensures ValidCards(a + b) == ValidCards(a) + ValidCards(b)
    ensures Contents(ValidCards(a + b)) == Contents(ValidCards(a)) + Contents(ValidCards(b))
  {
    FilterAppend(a, b, (c: Card) => IsComplete(c));
    ContentsAppend(ValidCards(a), ValidCards(b));
  }

  /** The payload entries of two draft lists in a row are those of each list in turn. */
  lemma ContentsAppend(l: seq<Card>, r: seq<Card>)
    ensures Contents(l + r) == Contents(l) + Contents(r)
  {
    var whole, parts := Contents(l + r), Contents(l) + Contents(r);
    forall i | 0 <= i < |whole| ensures whole[i] == parts[i] {
      if i < |l| {
        assert (l + r)[i] == l[i];
      } else {
        assert (l + r)[i] == r[i - |l|];
      }
    }
  }

  /** Submitting the page as it first loads, with a deck name, is refused:
      its single draft is empty. */
  method FreshPageScenario(firstCardId: string)
  {
    var editor := new DeckEditor(firstCardId);
    var outcome := editor.SubmitDeckData(Some("Spanish"), None, true);
    assert Trim("Spanish") != "" by { assert !IsWhitespace("Spanish"[0]); }
    assert !IsComplete(Card(firstCardId, "", ""));
    assert ValidCards(editor.cardsData) == [];
    assert outcome == Rejected(NoCompleteCard);
  }
}
