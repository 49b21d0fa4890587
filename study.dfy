/** The study page: the session cursor over the cards handed out by the server,
    what the page shows for it, and the keyboard shortcuts that flip the card
    and rate it. */
module Study {
  import opened Wrappers

  /** The three answers a learner can give (the buttons' `data-difficulty`). */
  datatype Rating = Hard | Good | Easy

  /** The `data-difficulty` attribute of a rating's button. */
  function RatingName(r: Rating): string {
    match r
    case Hard => "hard"
    case Good => "good"
    case Easy => "easy"
  }

  /** The keys documented for each rating: its digit and its letter in either case. */
  function KeysFor(r: Rating): set<string> {
    match r
    case Hard => {"1", "h", "H"}
    case Good => {"2", "g", "G"}
    case Easy => {"3", "e", "E"}
  }

  /** The rating a key press selects on a flipped card, checked in the order
      hard, good, easy; `key.toLowerCase() === "h"` holds of "h" and "H" only. */
  function RatingForKey(key: string): (r: Option<Rating>)
    ensures forall rating :: key in KeysFor(rating) <==> r == Some(rating)
  {
    if key == "1" || key == "h" || key == "H" then Some(Hard)
    else if key == "2" || key == "g" || key == "G" then Some(Good)
    else if key == "3" || key == "e" || key == "E" then Some(Easy)
    else None
  }

  /** What a keydown on the page does. */
  datatype KeyAction = Ignore | ToggleFlip | Rate(rating: Rating)

  predicate IsTextField(targetTag: string) {
    targetTag == "INPUT" || targetTag == "TEXTAREA"
  }

  predicate IsSpace(key: string) {
    key == " " || key == "Spacebar"
  }

  /** The document keydown handler's decision: typing in a text field is
      ignored, space flips the card, and a rating key rates only a flipped card. */
  function KeyActionFor(targetTag: string, key: string, flipped: bool): (a: KeyAction)
    ensures IsTextField(targetTag) ==> a == Ignore
    ensures a == ToggleFlip <==> !IsTextField(targetTag) && IsSpace(key)
    ensures a.Rate? <==> !IsTextField(targetTag) && !IsSpace(key) && flipped && RatingForKey(key).Some?
    ensures a.Rate? ==> key in KeysFor(a.rating)
  {
    if IsTextField(targetTag) then Ignore
    else if IsSpace(key) then ToggleFlip
    else if flipped then
      match RatingForKey(key)
      case Some(r) => Rate(r)
      case None => Ignore
    else Ignore
  }

  /** A card of the study session as the server sends it. */
  datatype StudyCard = StudyCard(flashcardId: string, front: string, back: string)

  /** What the card area and the counter show. */
  datatype Screen =
    | Loading                                                   // "Loading..."
    | NoCardsDue                                                // "0 cards"
    | ShowCard(position: nat, total: nat, front: string, back: string)  // "Card position of total"
    | Completed(total: nat)                                     // "Completed total cards!"
    | LoadFailed                                                // "Error loading cards: ..."

  /** The outcome of the session request. */
  datatype SessionResponse =
    | NotOk(status: int)                                        // an HTTP error status
    | Thrown                                                    // the request or its JSON body failed
    | Body(success: bool, cards: Option<seq<StudyCard>>)        // a parsed 2xx answer

  /** What the session request leads to besides the page state. */
  datatype LoadEffect = Stay | RedirectToLogin

  /** The outcome of the review request. */
  datatype ReviewResponse =
    | ReviewThrown                                              // the request or its JSON body failed
    | ReviewReply(ok: bool, success: bool)

  /** The review request a rating sends. */
  datatype ReviewRequest = ReviewRequest(flashcardId: string, rating: string)

  /** `!x` of an optional string in JavaScript: missing or empty. */
  predicate Missing(x: Option<string>) {
    x.None? || x.value == ""
  }

  /** The study page's state: `studyCards`, `currentCardIndex`, the flip state of
      the card, whether the rating buttons are shown, the flashcard id stored on
      the card element, and what the card area shows. */
  class StudySession {
    var studyCards: seq<StudyCard>
    var currentCardIndex: nat
    var flipped: bool
    var controlsVisible: bool
    var shownFlashcardId: Option<string>
    var screen: Screen

    /** What the page shows always agrees with the cursor: a shown card is the
        card under the cursor with its 1-based position, a completed session
        has run past the last card, and the rating buttons appear only beside
        a shown card. */
    ghost predicate Valid()
      reads this
    {
      && (screen.ShowCard? ==>
            && currentCardIndex < |studyCards|
            && screen == ShowCard(currentCardIndex + 1, |studyCards|,
                                  studyCards[currentCardIndex].front, studyCards[currentCardIndex].back)
            && shownFlashcardId == Some(studyCards[currentCardIndex].flashcardId))
      && (screen.Completed? ==> screen.total == |studyCards| && currentCardIndex >= |studyCards|)
      && (controlsVisible ==> screen.ShowCard?)
    }

    /** The page as opened with a deck selected, before the session arrives. */
    constructor ()
      ensures Valid()
      ensures studyCards == [] && currentCardIndex == 0 && !flipped && !controlsVisible
      ensures shownFlashcardId == None && screen == Loading
    {
      studyCards := [];
      currentCardIndex := 0;
      flipped := false;
      controlsVisible := false;
      shownFlashcardId := None;
      screen := Loading;
    }

    /** `loadCard`: shows `card` unflipped with the counter for the cursor. */
    method LoadCard(card: StudyCard)
      modifies this
      ensures studyCards == old(studyCards) && currentCardIndex == old(currentCardIndex)
      ensures controlsVisible == old(controlsVisible)
      ensures !flipped && shownFlashcardId == Some(card.flashcardId)
      ensures screen == ShowCard(currentCardIndex + 1, |studyCards|, card.front, card.back)
    {
      flipped := false;
      screen := ShowCard(currentCardIndex + 1, |studyCards|, card.front, card.back);
      shownFlashcardId := Some(card.flashcardId);
    }

    /** `fetchStudyCards` given the server's answer. A successful answer with a
        card list replaces the list; a non-empty one resets the cursor to the
        first card and shows the buttons, an empty one shows "0 cards" and
        leaves the cursor alone. Anything else shows an error; a 401 sends the
        browser to the login page. */
    method FetchStudyCards(response: SessionResponse) returns (effect: LoadEffect)
      requires Valid()
      modifies this
      ensures Valid()
      ensures effect == RedirectToLogin <==> response == NotOk(401)
      ensures response.Body? && response.success && response.cards.Some? ==>
                studyCards == response.cards.value
      ensures !(response.Body? && response.success && response.cards.Some?) ==>
                && studyCards == old(studyCards) && currentCardIndex == old(currentCardIndex)
                && flipped == old(flipped) && shownFlashcardId == old(shownFlashcardId)
                && !controlsVisible
                && screen == (if response == NotOk(401) then Loading else LoadFailed)
      ensures response.Body? && response.success && response.cards == Some([]) ==>
                && screen == NoCardsDue && !controlsVisible
                && currentCardIndex == old(currentCardIndex) && flipped == old(flipped)
                && shownFlashcardId == old(shownFlashcardId)
      ensures response.Body? && response.success && response.cards.Some? && response.cards.value != [] ==>
                && currentCardIndex == 0 && controlsVisible && !flipped
                && screen == ShowCard(1, |studyCards|, studyCards[0].front, studyCards[0].back)
                && shownFlashcardId == Some(studyCards[0].flashcardId)
    {
      effect := Stay;
      screen := Loading;
      controlsVisible := false;
      match response
      case NotOk(status) =>
        if status == 401 {
          effect := RedirectToLogin;
        } else {
          screen := LoadFailed;
        }
      case Thrown =>
        screen := LoadFailed;
      case Body(success, cards) =>
        if success && cards.Some? {
          studyCards := cards.value;
          if |studyCards| == 0 {
            screen := NoCardsDue;
          } else {
            currentCardIndex := 0;
            LoadCard(studyCards[currentCardIndex]);
            controlsVisible := true;
          }
        } else {
          screen := LoadFailed;
        }
    }

    /** A click on the card flips it. */
    method ToggleFlipped()
      modifies this
      ensures flipped == !old(flipped)
      ensures studyCards == old(studyCards) && currentCardIndex == old(currentCardIndex)
      ensures controlsVisible == old(controlsVisible)
      ensures shownFlashcardId == old(shownFlashcardId) && screen == old(screen)
    {
      flipped := !flipped;
    }

    /** `submitReview` given the server's answer. Only a 2xx answer reporting
        success moves the cursor, by exactly one, and then shows the next card
        or, past the last one, the completion message; any failure leaves the
        page as it was. */
    method SubmitReview(response: ReviewResponse)
      requires Valid()
      modifies this
      ensures Valid()
      ensures studyCards == old(studyCards)
      ensures response != ReviewReply(true, true) ==>
                && currentCardIndex == old(currentCardIndex) && screen == old(screen)
                && flipped == old(flipped) && controlsVisible == old(controlsVisible)
                && shownFlashcardId == old(shownFlashcardId)
      ensures response == ReviewReply(true, true) ==>
                currentCardIndex == old(currentCardIndex) + 1 && !flipped
      ensures response == ReviewReply(true, true) && currentCardIndex < |studyCards| ==>
                && screen == ShowCard(currentCardIndex + 1, |studyCards|,
                                      studyCards[currentCardIndex].front, studyCards[currentCardIndex].back)
                && shownFlashcardId == Some(studyCards[currentCardIndex].flashcardId)
                && controlsVisible == old(controlsVisible)
      ensures response == ReviewReply(true, true) && currentCardIndex >= |studyCards| ==>
                && screen == Completed(|studyCards|) && !controlsVisible
                && shownFlashcardId == old(shownFlashcardId)
    {
      if response.ReviewReply? && response.ok && response.success {
        currentCardIndex := currentCardIndex + 1;
        if currentCardIndex < |studyCards| {
          LoadCard(studyCards[currentCardIndex]);
        } else {
          screen := Completed(|studyCards|);
          flipped := false;
          controlsVisible := false;
        }
      }
    }

    /** A rating button's click handler: without a stored flashcard id or a
        rating nothing is sent; otherwise the review is sent and `SubmitReview`
        handles the answer. Returns the request sent, if any. */
    method OnRatingClick(rating: Option<string>, response: ReviewResponse) returns (sent: Option<ReviewRequest>)
      requires Valid()
      modifies this
      ensures Valid()
      ensures studyCards == old(studyCards)
      ensures Missing(old(shownFlashcardId)) || Missing(rating) ==>
                && sent == None
                && currentCardIndex == old(currentCardIndex) && screen == old(screen)
                && flipped == old(flipped) && controlsVisible == old(controlsVisible)
                && shownFlashcardId == old(shownFlashcardId)
      ensures !Missing(old(shownFlashcardId)) && !Missing(rating) ==>
                sent == Some(ReviewRequest(old(shownFlashcardId).value, rating.value))
      ensures sent.Some? && response != ReviewReply(true, true) ==>
                && currentCardIndex == old(currentCardIndex) && screen == old(screen)
                && flipped == old(flipped) && controlsVisible == old(controlsVisible)
                && shownFlashcardId == old(shownFlashcardId)
      ensures sent.Some? && response == ReviewReply(true, true) ==>
                currentCardIndex == old(currentCardIndex) + 1 && !flipped
      ensures sent.Some? && response == ReviewReply(true, true) && currentCardIndex < |studyCards| ==>
                && screen == ShowCard(currentCardIndex + 1, |studyCards|,
                                      studyCards[currentCardIndex].front, studyCards[currentCardIndex].back)
                && shownFlashcardId == Some(studyCards[currentCardIndex].flashcardId)
                && controlsVisible == old(controlsVisible)
      ensures sent.Some? && response == ReviewReply(true, true) && currentCardIndex >= |studyCards| ==>
                && screen == Completed(|studyCards|) && !controlsVisible
                && shownFlashcardId == old(shownFlashcardId)
    {
      if Missing(shownFlashcardId) || Missing(rating) {
        return None;
      }
      sent := Some(ReviewRequest(shownFlashcardId.value, rating.value));
      SubmitReview(response);
    }

    /** The document keydown handler: flips on space, and on a flipped card
        clicks the button of the rating the key selects. */
    method OnKeyDown(targetTag: string, key: string, response: ReviewResponse) returns (sent: Option<ReviewRequest>)
      requires Valid()
      modifies this
      ensures Valid()
      ensures studyCards == old(studyCards)
      ensures KeyActionFor(targetTag, key, old(flipped)) == Ignore ==>
                && sent == None && flipped == old(flipped)
                && currentCardIndex == old(currentCardIndex) && screen == old(screen)
                && controlsVisible == old(controlsVisible) && shownFlashcardId == old(shownFlashcardId)
      ensures KeyActionFor(targetTag, key, old(flipped)) == ToggleFlip ==>
                && sent == None && flipped == !old(flipped)
                && currentCardIndex == old(currentCardIndex) && screen == old(screen)
                && controlsVisible == old(controlsVisible) && shownFlashcardId == old(shownFlashcardId)
      ensures KeyActionFor(targetTag, key, old(flipped)).Rate? && Missing(old(shownFlashcardId)) ==>
                && sent == None && flipped == old(flipped)
                && currentCardIndex == old(currentCardIndex) && screen == old(screen)
                && controlsVisible == old(controlsVisible) && shownFlashcardId == old(shownFlashcardId)
      ensures KeyActionFor(targetTag, key, old(flipped)).Rate? && !Missing(old(shownFlashcardId)) ==>
                sent == Some(ReviewRequest(old(shownFlashcardId).value,
                                           RatingName(KeyActionFor(targetTag, key, old(flipped)).rating)))
      ensures sent.Some? ==> old(flipped)
      ensures sent.Some? && response != ReviewReply(true, true) ==>
                && currentCardIndex == old(currentCardIndex) && screen == old(screen)
                && flipped == old(flipped) && controlsVisible == old(controlsVisible)
                && shownFlashcardId == old(shownFlashcardId)
      ensures sent.Some? && response == ReviewReply(true, true) ==>
                currentCardIndex == old(currentCardIndex) + 1 && !flipped
      ensures sent.Some? && response == ReviewReply(true, true) && currentCardIndex < |studyCards| ==>
                && screen == ShowCard(currentCardIndex + 1, |studyCards|,
                                      studyCards[currentCardIndex].front, studyCards[currentCardIndex].back)
                && shownFlashcardId == Some(studyCards[currentCardIndex].flashcardId)
                && controlsVisible == old(controlsVisible)
      ensures sent.Some? && response == ReviewReply(true, true) && currentCardIndex >= |studyCards| ==>
                && screen == Completed(|studyCards|) && !controlsVisible
                && shownFlashcardId == old(shownFlashcardId)
    {
      sent := None;
      match KeyActionFor(targetTag, key, flipped)
      case Ignore =>
      case ToggleFlip =>
        ToggleFlipped();
      case Rate(r) =>
        sent := OnRatingClick(Some(RatingName(r)), response);
    }
  }

  /** A two-card session: a review that fails leaves the first card up, two
      that succeed complete the session. The card element keeps the last
      flashcard id, so space and then "1" still send a review of the last
      card, and the cursor runs past the end of the list. */
  method TwoCardScenario(a: StudyCard, b: StudyCard)
    requires b.flashcardId != ""
  {
    var session := new StudySession();
    var effect := session.FetchStudyCards(Body(true, Some([a, b])));
    assert session.screen == ShowCard(1, 2, a.front, a.back);
    session.SubmitReview(ReviewThrown);
    assert session.currentCardIndex == 0;
    session.SubmitReview(ReviewReply(true, true));
    assert session.screen == ShowCard(2, 2, b.front, b.back);
    session.SubmitReview(ReviewReply(true, true));
    assert session.screen == Completed(2) && session.currentCardIndex == 2;
    var none := session.OnKeyDown("BODY", " ", ReviewThrown);
    var again := session.OnKeyDown("BODY", "1", ReviewReply(true, true));
    assert again == Some(ReviewRequest(b.flashcardId, "hard")) by {
      assert b.flashcardId != "" ==> !Missing(Some(b.flashcardId));
    }
    assert session.currentCardIndex == 3 && session.screen == Completed(2);
  }
}
