/** The photographs of a palm reading, from the upload slot to the verdict. One handler is one step. */
module PalmImages {
  type ImageId = nat

  datatype ImageStatus = Uploaded | PendingReview | Valid | Invalid

  /** `requiredPalmImageSlots`: zero for any other service. */
  function Slots(code: string): nat {
    if code == "PALM_BASIC" then 1 else if code == "PALM_COMPLETE" then 2 else 0
  }

  predicate IsPalm(code: string) {
    code == "PALM_BASIC" || code == "PALM_COMPLETE"
  }

  /** A palm reading and its rows in the table of images. */
  datatype State = State(code: string, draft: bool, images: map<ImageId, ImageStatus>)

  datatype Event =
    | Presign(image: ImageId)
    | Confirm(image: ImageId, acceptable: bool)
    | Validate(image: ImageId, legible: bool)
    | ValidationFailed(image: ImageId)
    | Submit(reserved: bool)

  /** The images that take a slot. */
  function Taken(images: map<ImageId, ImageStatus>): set<ImageId> {
    set i | i in images && images[i] != Invalid
  }

  function Validated(images: map<ImageId, ImageStatus>): set<ImageId> {
    set i | i in images && images[i] == Valid
  }

  function Set(s: State, i: ImageId, to: ImageStatus): State {
    s.(images := s.images[i := to])
  }

  function Step(s: State, e: Event): State {
    match e
    case Presign(i) =>
      var free := s.draft && IsPalm(s.code) && |Taken(s.images)| < Slots(s.code);
      if free && i !in s.images then Set(s, i, Uploaded) else s
    case Confirm(i, acceptable) =>
      var waiting := s.draft && i in s.images && s.images[i] == Uploaded;
      if waiting then Set(s, i, if acceptable then PendingReview else Invalid) else s
    case Validate(i, legible) =>
      if i in s.images && s.images[i] == PendingReview then Set(s, i, if legible then Valid else Invalid) else s
    case ValidationFailed(i) => if i in s.images && s.images[i] != Valid then Set(s, i, Invalid) else s
    case Submit(reserved) =>
      if s.draft && |Validated(s.images)| >= Slots(s.code) && reserved then s.(draft := false) else s
  }

  /** `ids` are the images that were not rejected. */
  ghost predicate TakeSlots(images: map<ImageId, ImageStatus>, ids: set<ImageId>) {
    forall i :: i in ids <==> i in images && images[i] != Invalid
  }

  ghost predicate AreValid(images: map<ImageId, ImageStatus>, ids: set<ImageId>) {
    forall i :: i in ids <==> i in images && images[i] == Valid
  }

  /** One photograph for PALM_BASIC, two for PALM_COMPLETE. */
  predicate IsSlots(code: string, n: nat) {
    n == if code == "PALM_BASIC" then 1 else if code == "PALM_COMPLETE" then 2 else 0
  }

  lemma SlotsSay(s: State)
    ensures forall ids | TakeSlots(s.images, ids) :: ids == Taken(s.images)
    ensures forall ids | AreValid(s.images, ids) :: ids == Validated(s.images)
    ensures IsSlots(s.code, Slots(s.code))
  {
  }

  class PalmReading {
    const code: string
    var draft: bool
    var images: map<ImageId, ImageStatus>

    constructor (code: string)
      ensures Now() == State(code, true, map[])
    {
      this.code, draft, images := code, true, map[];
    }

    function Now(): State
      reads this
    {
      State(code, draft, images)
    }

    /** `i` is the id, and the storage key, of the new row. */
    method PresignImage(i: ImageId) returns (ok: bool)
      requires i !in images
      modifies this`images
      ensures Now() == Step(old(Now()), Presign(i))
      ensures forall ids, n | TakeSlots(old(images), ids) && IsSlots(code, n) :: ok <==> draft && |ids| < n
      ensures images == if ok then old(images)[i := Uploaded] else old(images)
    {
      SlotsSay(Now());
      if !draft || !IsPalm(code) {
        return false;
      }
      var existingSlots := |Taken(images)|;
      if existingSlots >= Slots(code) {
        return false;
      }
      images := images[i := Uploaded];
      return true;
    }

    /** `acceptable` is the outcome of the checks of size, type and dimensions. */
    method ConfirmImage(i: ImageId, acceptable: bool) returns (enqueued: bool)
      modifies this`images
      ensures Now() == Step(old(Now()), Confirm(i, acceptable))
      ensures enqueued <==> acceptable && draft && i in old(images) && old(images)[i] == Uploaded
      ensures images == if draft && i in old(images) && old(images)[i] == Uploaded
                        then old(images)[i := if acceptable then PendingReview else Invalid] else old(images)
    {
      if !draft || i !in images || images[i] != Uploaded {
        return false;
      }
      if !acceptable {
        images := images[i := Invalid];
        return false;
      }
      images := images[i := PendingReview];
      return true;
    }

    /** `completed` is the outcome of the AI call, and `isLegiblePalm` what it then says. */
    method ValidateImage(i: ImageId, completed: bool, isLegiblePalm: bool)
      modifies this`images
      ensures Now() == Step(old(Now()), Validate(i, completed && isLegiblePalm))
      ensures images == if i in old(images) && old(images)[i] == PendingReview
                        then old(images)[i := if completed && isLegiblePalm then Valid else Invalid] else old(images)
    {
      if i !in images || images[i] != PendingReview {
        return;
      }
      if completed {
        images := images[i := if isLegiblePalm then Valid else Invalid];
        return;
      }
      images := images[i := Invalid];
    }

    method OnFailed(i: ImageId, attemptsMade: nat, maxAttempts: nat)
      modifies this`images
      ensures Now() == if attemptsMade < maxAttempts then old(Now()) else Step(old(Now()), ValidationFailed(i))
      ensures images == if attemptsMade >= maxAttempts && i in old(images) && old(images)[i] != Valid
                        then old(images)[i := Invalid] else old(images)
    {
      if attemptsMade < maxAttempts {
        return;
      }
      if i in images && images[i] != Valid {
        images := images[i := Invalid];
      }
    }

    /** `reserved` says whether the wallet could pay. */
    method SubmitPalmReading(reserved: bool) returns (ok: bool)
      modifies this`draft
      ensures Now() == Step(old(Now()), Submit(reserved))
      ensures forall ids, n | AreValid(images, ids) && IsSlots(code, n) :: ok <==> old(draft) && reserved && |ids| >= n
      ensures draft == (old(draft) && !ok)
    {
      SlotsSay(Now());
      if !draft || |Validated(images)| < Slots(code) || !reserved {
        return false;
      }
      draft := false;
      return true;
    }
  }

  /** The slots are never exceeded; out of DRAFT they are all taken, by valid images. */
  ghost predicate SlotsOk(s: State) {
    && |Taken(s.images)| <= Slots(s.code)
    && (!s.draft ==> Taken(s.images) == Validated(s.images) && |Validated(s.images)| == Slots(s.code))
  }

  lemma Subset(a: set<ImageId>, b: set<ImageId>)
    requires a <= b
    ensures |a| <= |b| && (|a| == |b| ==> a == b)
  {
    assert b == a + (b - a) && |b| == |a| + |b - a|;
  }

  lemma ValidatedAreTaken(images: map<ImageId, ImageStatus>)
    ensures Validated(images) <= Taken(images) && |Validated(images)| <= |Taken(images)|
    ensures |Validated(images)| == |Taken(images)| ==> Validated(images) == Taken(images)
  {
    Subset(Validated(images), Taken(images));
  }

  lemma TakenAfter(images: map<ImageId, ImageStatus>, i: ImageId, to: ImageStatus)
    ensures Taken(images[i := to]) == if to != Invalid then Taken(images) + {i} else Taken(images) - {i}
    ensures Validated(images[i := to]) == if to == Valid then Validated(images) + {i} else Validated(images) - {i}
  {
  }

  lemma StepKeepsSlots(s: State, e: Event)
    requires SlotsOk(s)
    ensures SlotsOk(Step(s, e))
  {
    ValidatedAreTaken(s.images);
    if !e.Submit? {
      var s' := Step(s, e);
      if s' != s {
        TakenAfter(s.images, e.image, s'.images[e.image]);
      }
    }
  }

  function Run(s: State, events: seq<Event>): State {
    if events == [] then s else Step(Run(s, events[..|events| - 1]), events[|events| - 1])
  }

  lemma {:induction false} RunKeepsSlots(code: string, events: seq<Event>)
    ensures SlotsOk(Run(State(code, true, map[]), events)) && Run(State(code, true, map[]), events).code == code
  {
    hide SlotsOk;
    var start := State(code, true, map[]);
    if events == [] {
      assert SlotsOk(start) by {
        NoImages(code);
      }
    } else {
      RunKeepsSlots(code, events[..|events| - 1]);
      StepKeepsSlots(Run(start, events[..|events| - 1]), events[|events| - 1]);
    }
  }

  lemma NoImages(code: string)
    ensures SlotsOk(State(code, true, map[]))
  {
    var none: map<ImageId, ImageStatus> := map[];
    assert Taken(none) == {};
  }

  /** In every run the images that are not INVALID never exceed the slots of the service, and once out of
      DRAFT the VALID ones fill them. */
  lemma SlotsAreNeverExceeded(code: string, events: seq<Event>)
    ensures var s := Run(State(code, true, map[]), events);
            && SlotsOk(s) && s.code == code
            && (forall ids, n | TakeSlots(s.images, ids) && IsSlots(code, n) :: |ids| <= n)
            && (!s.draft ==> forall ids, n | AreValid(s.images, ids) && IsSlots(code, n) :: |ids| == n)
  {
    hide Run;
    RunKeepsSlots(code, events);
    SlotsSay(Run(State(code, true, map[]), events));
  }

  /** Once out of DRAFT a palm reading has the images it was submitted with, all VALID, one per slot,
      and none waiting, for ever after. */
  lemma {:induction false} SubmittedImagesStay(code: string, events: seq<Event>, later: seq<Event>)
    requires !Run(State(code, true, map[]), events).draft
    ensures var s, s' := Run(State(code, true, map[]), events), Run(Run(State(code, true, map[]), events), later);
            && !s'.draft && Validated(s'.images) == Validated(s.images) && |Validated(s'.images)| == Slots(code)
            && (forall i | i in s'.images :: s'.images[i] == Valid || s'.images[i] == Invalid)
  {
    var s := Run(State(code, true, map[]), events);
    SlotsAreNeverExceeded(code, events);
    if later == [] {
      AllJudged(s);
    } else {
      SubmittedImagesStay(code, events, later[..|later| - 1]);
    }
  }

  /** How one image comes to its status. */
  lemma OneImage(s: State, e: Event, i: ImageId)
    requires i in Step(s, e).images && (i in s.images ==> Step(s, e).images[i] != s.images[i])
    ensures match Step(s, e).images[i]
            case Uploaded => i !in s.images && e == Presign(i)
            case PendingReview => i in s.images && s.images[i] == Uploaded && e == Confirm(i, true)
            case Valid => i in s.images && s.images[i] == PendingReview && e == Validate(i, true)
            case Invalid => i in s.images
  {
  }

  /** An image is VALID only after its upload, its confirmation and a verdict that found it legible, in
      this order. */
  lemma {:induction false} ImagesAreJudged(code: string, events: seq<Event>, i: ImageId)
    returns (p: nat, c: nat, v: nat)
    requires i in Run(State(code, true, map[]), events).images
    ensures var status := Run(State(code, true, map[]), events).images[i];
            && (status != Invalid ==> p < |events| && events[p] == Presign(i))
            && (status == PendingReview || status == Valid ==> p < c < |events| && events[c] == Confirm(i, true))
            && (status == Valid ==> c < v < |events| && events[v] == Validate(i, true))
  {
    hide Step;
    p, c, v := 0, 0, 0;
    if events != [] {
      var last := |events| - 1;
      var before := Run(State(code, true, map[]), events[..last]);
      var now := Run(State(code, true, map[]), events);
      if i in before.images {
        p, c, v := ImagesAreJudged(code, events[..last], i);
      }
      if i !in before.images || now.images[i] != before.images[i] {
        OneImage(before, events[last], i);
        match now.images[i]
        case Uploaded => p := last;
        case PendingReview => c := last;
        case Valid => v := last;
        case Invalid =>
      }
    }
  }

  lemma AllJudged(s: State)
    requires SlotsOk(s) && !s.draft
    ensures forall i | i in s.images :: s.images[i] == Valid || s.images[i] == Invalid
  {
    forall i | i in s.images ensures s.images[i] == Valid || s.images[i] == Invalid {
      assert i in Taken(s.images) <==> i in Validated(s.images);
    }
  }

  // ---------- Writes that come after a check ----------

  /** Any write of an image, new or not, whatever was checked before it. */
  lemma WriteIsSafeIff(s: State, i: ImageId, to: ImageStatus)
    requires SlotsOk(s)
    ensures SlotsOk(Set(s, i, to)) <==>
            if s.draft then to != Invalid && i !in Taken(s.images) ==> |Taken(s.images)| < Slots(s.code)
            else if i in Taken(s.images) then to == Valid else to == Invalid
  {
    var s' := Set(s, i, to);
    TakenAfter(s.images, i, to);
    ValidatedAreTaken(s.images);
    ValidatedAreTaken(s'.images);
    assert i in Validated(s.images) ==> i in Taken(s.images);
    assert i in Validated(s'.images) <==> to == Valid;
  }

  /** `presignImage` counts the slots in one statement and creates the row in another: exactly a free
      slot of a draft, when the row is created, makes that safe. */
  lemma LatePresignIsSafeIff(s: State, i: ImageId)
    requires SlotsOk(s) && i !in s.images
    ensures SlotsOk(Set(s, i, Uploaded)) <==> s.draft && |Taken(s.images)| < Slots(s.code)
  {
    WriteIsSafeIff(s, i, Uploaded);
  }

  /** `confirmImage` checks the status, reads the file, and writes: safe exactly when it rejects an
      image that is rejected already or, in a draft, gives no rejected image a slot that is taken. */
  lemma LateConfirmIsSafeIff(s: State, i: ImageId, acceptable: bool)
    requires SlotsOk(s) && i in s.images
    ensures SlotsOk(Set(s, i, if acceptable then PendingReview else Invalid)) <==>
            if s.draft then acceptable && s.images[i] == Invalid ==> |Taken(s.images)| < Slots(s.code)
            else !acceptable && s.images[i] == Invalid
  {
    WriteIsSafeIff(s, i, if acceptable then PendingReview else Invalid);
  }

  /** `validateImage` checks the status before the AI call and writes the verdict after it: safe exactly
      when it changes nothing after the submit, and revives no rejected image into a taken slot before. */
  lemma LateVerdictIsSafeIff(s: State, i: ImageId, legible: bool)
    requires SlotsOk(s) && i in s.images
    ensures SlotsOk(Set(s, i, if legible then Valid else Invalid)) <==>
            if s.draft then legible && s.images[i] == Invalid ==> |Taken(s.images)| < Slots(s.code)
            else legible == (s.images[i] == Valid)
  {
    WriteIsSafeIff(s, i, if legible then Valid else Invalid);
    assert !s.draft ==> (i in Taken(s.images) <==> i in Validated(s.images));
  }

  /** `submitPalmReading` counts the VALID images before the transaction that leaves DRAFT: safe exactly
      when the count still fills the slots by then. */
  lemma LateSubmitIsSafeIff(s: State)
    requires SlotsOk(s)
    ensures SlotsOk(s.(draft := false)) <==> |Validated(s.images)| >= Slots(s.code)
  {
    ValidatedAreTaken(s.images);
  }

  /** Two overlapping requests for the one slot of PALM_BASIC, both of which counted no image, take it twice. */
  lemma OverlappingPresignsExceed(i: ImageId, j: ImageId)
    requires i != j
    ensures var s := State("PALM_BASIC", true, map[]);
            && SlotsOk(s) && |Taken(s.images)| < Slots(s.code)
            && |Taken(Set(Set(s, i, Uploaded), j, Uploaded).images)| == 2 > Slots(s.code)
  {
    var none: map<ImageId, ImageStatus> := map[];
    assert Taken(none) == {} && Validated(none) == {};
    TakenAfter(none, i, Uploaded);
    TakenAfter(none[i := Uploaded], j, Uploaded);
    assert Taken(none[i := Uploaded][j := Uploaded]) == {i, j};
  }

  /** A verdict that a stalled run writes after the submit leaves the reading without its photograph. */
  lemma StaleVerdictEmptiesSlot(i: ImageId)
    ensures var s := Run(State("PALM_BASIC", true, map[]),
                         [Presign(i), Confirm(i, true), Validate(i, true), Submit(true)]);
            SlotsOk(s) && !s.draft && s.images == map[i := Valid] && Validated(Set(s, i, Invalid).images) == {}
  {
    var start := State("PALM_BASIC", true, map[]);
    var s1, s2, s3 := Set(start, i, Uploaded), Set(start, i, PendingReview), Set(start, i, Valid);
    var events := [Presign(i), Confirm(i, true), Validate(i, true), Submit(true)];
    assert Taken(start.images) == {} && Validated(s3.images) == {i};
    assert events[..3][..2] == events[..2] && events[..2][..1] == events[..1] && events[..1][..0] == [];
    assert Run(start, events[..0]) == start;
    assert Run(start, events[..1]) == s1;
    assert Run(start, events[..2]) == s2;
    assert Run(start, events[..3]) == s3;
    SlotsAreNeverExceeded("PALM_BASIC", events);
  }
}
