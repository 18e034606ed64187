/** The update plan the language model returns and the batch of Slides API
    requests built from it (content.js, `applyUpdatesToSlides`). */
module Plan {

  /** One `{objectId, text}` entry of a slide's `updates`. */
  datatype Update = Update(objectId: string, text: string)

  /** One entry of the plan's `slides`; `slideNumber` is carried but never read. */
  datatype SlideUpdate = SlideUpdate(slideNumber: int, updates: seq<Update>)

  datatype UpdatePlan = UpdatePlan(slides: seq<SlideUpdate>)

  /** The only text range the builder uses: `{type: 'ALL'}`. */
  datatype TextRange = All

  /** A `batchUpdate` request: `deleteText` or `insertText`. */
  datatype Request =
    | DeleteText(objectId: string, textRange: TextRange)
    | InsertText(objectId: string, text: string, insertionIndex: int)

  /** The updates of the slides, in slide order and then in update order. */
  function AllUpdates(slides: seq<SlideUpdate>): seq<Update> {
    if slides == [] then [] else slides[0].updates + AllUpdates(slides[1..])
  }

  /** The number of updates across all slides. */
  function TotalUpdates(slides: seq<SlideUpdate>): nat {
    if slides == [] then 0 else |slides[0].updates| + TotalUpdates(slides[1..])
  }

  /** The two requests that rewrite one element: clear it, then insert at 0. */
  function Rewrite(u: Update): seq<Request> {
    [DeleteText(u.objectId, All), InsertText(u.objectId, u.text, 0)]
  }

  /** The requests for a sequence of updates, one rewrite after another. */
  function RequestsFor(us: seq<Update>): seq<Request> {
    if us == [] then [] else Rewrite(us[0]) + RequestsFor(us[1..])
  }

  /** The batch the source sends for a plan. */
  function PlanRequests(plan: UpdatePlan): seq<Request> {
    RequestsFor(AllUpdates(plan.slides))
  }

  lemma {:induction false} AllUpdatesAppend(a: seq<SlideUpdate>, b: seq<SlideUpdate>)
    ensures AllUpdates(a + b) == AllUpdates(a) + AllUpdates(b)
  {
    if a == [] {
      assert a + b == b;
    } else {
      assert (a + b)[1..] == a[1..] + b;
      AllUpdatesAppend(a[1..], b);
    }
  }

  lemma {:induction false} RequestsForAppend(a: seq<Update>, b: seq<Update>)
    ensures RequestsFor(a + b) == RequestsFor(a) + RequestsFor(b)
  {
    if a == [] {
      assert a + b == b;
    } else {
      assert (a + b)[1..] == a[1..] + b;
      RequestsForAppend(a[1..], b);
    }
  }

  /** Counting by updates and counting by slides agree. */
  lemma {:induction false} AllUpdatesLength(slides: seq<SlideUpdate>)
    ensures |AllUpdates(slides)| == TotalUpdates(slides)
  {
    if slides != [] {
      AllUpdatesLength(slides[1..]);
    }
  }

  /** Request `2k` clears the `k`-th update's element and request `2k + 1`
      inserts its text at index 0; there are no other requests. */
  lemma {:induction false} RequestsForAt(us: seq<Update>, k: nat)
    requires k < |us|
    ensures |RequestsFor(us)| == 2 * |us|
    ensures RequestsFor(us)[2 * k] == DeleteText(us[k].objectId, All)
    ensures RequestsFor(us)[2 * k + 1] == InsertText(us[k].objectId, us[k].text, 0)
  {
    if k == 0 {
      RequestsForLength(us[1..]);
    } else {
      RequestsForAt(us[1..], k - 1);
    }
  }

  lemma {:induction false} RequestsForLength(us: seq<Update>)
    ensures |RequestsFor(us)| == 2 * |us|
  {
    if us != [] {
      RequestsForLength(us[1..]);
    }
  }

  /** The batch holds exactly two requests per update of the plan. */
  lemma PlanRequestCount(plan: UpdatePlan)
    ensures |PlanRequests(plan)| == 2 * TotalUpdates(plan.slides)
  {
    RequestsForLength(AllUpdates(plan.slides));
    AllUpdatesLength(plan.slides);
  }

  /** Read position by position, the batch alternates: every even position is
      a `deleteText` of some update's element, and the `insertText` of that
      same update's text, at index 0, follows it immediately. */
  lemma PlanRequestsAlternate(plan: UpdatePlan, i: nat)
    requires i < 2 * |AllUpdates(plan.slides)|
    ensures |PlanRequests(plan)| == 2 * |AllUpdates(plan.slides)|
    ensures i % 2 == 0 <==> PlanRequests(plan)[i].DeleteText?
    ensures i % 2 == 0 ==> i + 1 < |PlanRequests(plan)|
    ensures i % 2 == 0 ==>
      var u := AllUpdates(plan.slides)[i / 2];
      PlanRequests(plan)[i] == DeleteText(u.objectId, All) &&
      PlanRequests(plan)[i + 1] == InsertText(u.objectId, u.text, 0)
  {
    var us := AllUpdates(plan.slides);
    RequestsForLength(us);
    RequestsForAt(us, i / 2);
  }

  /** The batch for a plan is the batch for its first slides followed by the
      batch for the rest: slides are served in their order. */
  lemma PlanRequestsSplit(a: seq<SlideUpdate>, b: seq<SlideUpdate>)
    ensures PlanRequests(UpdatePlan(a + b)) == PlanRequests(UpdatePlan(a)) + PlanRequests(UpdatePlan(b))
  {
    AllUpdatesAppend(a, b);
    RequestsForAppend(AllUpdates(a), AllUpdates(b));
  }

  /** One push pair of the inner loop extends the batch by that update's rewrite. */
  lemma PushStep(done: seq<Update>, updates: seq<Update>, j: nat)
    requires j < |updates|
    ensures RequestsFor(done + updates[..j + 1]) ==
      RequestsFor(done + updates[..j]) + [DeleteText(updates[j].objectId, All), InsertText(updates[j].objectId, updates[j].text, 0)]
  {
    assert done + updates[..j + 1] == (done + updates[..j]) + [updates[j]];
    RequestsForAppend(done + updates[..j], [updates[j]]);
    assert RequestsFor([updates[j]]) == Rewrite(updates[j]) by {
      assert [updates[j]][1..] == [];
    }
  }

  /** Finishing a slide's updates finishes that slide. */
  lemma SlideStep(slides: seq<SlideUpdate>, i: nat)
    requires i < |slides|
    ensures AllUpdates(slides[..i + 1]) == AllUpdates(slides[..i]) + slides[i].updates[..|slides[i].updates|]
  {
    assert slides[..i + 1] == slides[..i] + [slides[i]];
    AllUpdatesAppend(slides[..i], [slides[i]]);
    assert AllUpdates([slides[i]]) == slides[i].updates by {
      assert [slides[i]][1..] == [];
    }
    assert slides[i].updates[..|slides[i].updates|] == slides[i].updates;
  }

  /** The request-building loops of `applyUpdatesToSlides`: for each slide,
      for each of its updates, push a `deleteText` and then an `insertText`. */
  method BuildRequests(plan: UpdatePlan) returns (requests: seq<Request>)
    ensures requests == PlanRequests(plan)
    ensures |requests| == 2 * TotalUpdates(plan.slides)
  {
    requests := [];
    var i := 0;
    while i < |plan.slides|
      invariant 0 <= i <= |plan.slides|
      invariant requests == RequestsFor(AllUpdates(plan.slides[..i]))
    {
      var updates := plan.slides[i].updates;
      ghost var done := AllUpdates(plan.slides[..i]);
      var j := 0;
      assert done + updates[..j] == done;
      while j < |updates|
        invariant 0 <= j <= |updates|
        invariant requests == RequestsFor(done + updates[..j])
      {
        var update := updates[j];
        requests := requests + [DeleteText(update.objectId, All)];
        requests := requests + [InsertText(update.objectId, update.text, 0)];
        PushStep(done, updates, j);
        j := j + 1;
      }
      SlideStep(plan.slides, i);
      i := i + 1;
    }
    assert plan.slides[..i] == plan.slides;
    PlanRequestCount(plan);
  }
}
