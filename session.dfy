/** A crop-screen session as a sequence of events: button presses and the
    delivery of background results. Tasks dispatched but not yet delivered
    wait in `pending`; any of them may be delivered next, since crop and
    enhance run on different worker pools. */
module Session {
  import opened Imaging
  import opened FileNames
  import opened Crop

  datatype Task = Cropping(crop: CropTask) | Enhancing(enhance: EnhanceTask)

  datatype Event =
    | CropClicked(quad: Corners)
    | EnhanceClicked
    | SaveClicked(hasPermission: bool, millis: nat)
    | Delivered(index: nat)

  datatype State = State(fields: Fields, pending: seq<Task>)

  function Start(picture: Option<Mat>): State
  {
    State(InitialFields(picture), [])
  }

  /** The result a task computes, handed to the presenter's callback. */
  function Complete(env: Collaborators, f: Fields, t: Task): Fields
  {
    match t
    case Cropping(c) => DeliverCrop(env, f, RunCrop(env, c))
    case Enhancing(e) => DeliverEnhance(f, RunEnhance(env, e))
  }

  function Step(env: Collaborators, st: State, e: Event): State
  {
    match e
    case CropClicked(q) =>
      (match RequestCrop(st.fields, q)
       case None => st
       case Some(t) => st.(pending := st.pending + [Cropping(t)]))
    case EnhanceClicked =>
      (match RequestEnhance(st.fields)
       case None => st
       case Some(t) => st.(pending := st.pending + [Enhancing(t)]))
    case SaveClicked(_, _) => st
    case Delivered(i) =>
      if i < |st.pending| then
        State(Complete(env, st.fields, st.pending[i]), st.pending[..i] + st.pending[i + 1..])
      else st
  }

  function Run(env: Collaborators, st: State, trace: seq<Event>): State
    decreases |trace|
  {
    if trace == [] then st else Run(env, Step(env, st, trace[0]), trace[1..])
  }

  lemma {:induction false} RunConcat(env: Collaborators, st: State, t1: seq<Event>, t2: seq<Event>)
    ensures Run(env, st, t1 + t2) == Run(env, Run(env, st, t1), t2)
    decreases |t1|
  {
    if t1 != [] {
      assert (t1 + t2)[1..] == t1[1..] + t2;
      RunConcat(env, Step(env, st, t1[0]), t1[1..], t2);
    } else {
      assert t1 + t2 == t2;
    }
  }

  /** Without a source picture no crop is dispatched and nothing ever changes. */
  lemma {:induction false} NoPictureIsInert(env: Collaborators, trace: seq<Event>)
    ensures Run(env, Start(None), trace) == Start(None)
    decreases |trace|
  {
    if trace != [] {
      assert Step(env, Start(None), trace[0]) == Start(None);
      NoPictureIsInert(env, trace[1..]);
    }
  }

  predicate NoCropPending(pending: seq<Task>)
  {
    forall t :: t in pending ==> t.Enhancing?
  }

  /** Once a crop has been delivered and no crop task is still running,
      every later crop press is refused: the delivered matrix and bitmap
      stay as they are whatever happens next. */
  lemma {:induction false} CropNotOverwritten(env: Collaborators, st: State, trace: seq<Event>)
    requires st.fields.croppedBitmap.Some? && NoCropPending(st.pending)
    ensures Run(env, st, trace).fields.croppedPicture == st.fields.croppedPicture
    ensures Run(env, st, trace).fields.croppedBitmap == st.fields.croppedBitmap
    ensures NoCropPending(Run(env, st, trace).pending)
    decreases |trace|
  {
    if trace != [] {
      var next := Step(env, st, trace[0]);
      if trace[0].Delivered? && trace[0].index < |st.pending| {
        assert st.pending[trace[0].index] in st.pending;
        assert forall t :: t in next.pending ==> t in st.pending;
      }
      CropNotOverwritten(env, next, trace[1..]);
    }
  }

  /** The presenter's fields are consistent and every pending task was
      dispatched from a state that allowed it. */
  predicate Coherent(env: Collaborators, st: State)
  {
    CropCoherent(env, st.fields) &&
    (st.fields.enhancedPicture.Some? ==> st.fields.croppedBitmap.Some?) &&
    (forall t :: t in st.pending && t.Enhancing? ==> st.fields.croppedBitmap.Some?) &&
    (forall t :: t in st.pending && t.Cropping? ==> st.fields.picture == Some(t.crop.source))
  }

  /** Every session reachable from the start is coherent: in particular an
      enhanced image never exists without a cropped one. */
  lemma {:induction false} CoherentPreserved(env: Collaborators, st: State, trace: seq<Event>)
    requires Coherent(env, st)
    ensures Coherent(env, Run(env, st, trace))
    ensures Run(env, st, trace).fields.picture == st.fields.picture
    decreases |trace|
  {
    if trace != [] {
      var next := Step(env, st, trace[0]);
      if trace[0].Delivered? && trace[0].index < |st.pending| {
        assert st.pending[trace[0].index] in st.pending;
        assert forall t :: t in next.pending ==> t in st.pending;
      }
      CoherentPreserved(env, next, trace[1..]);
    }
  }

  lemma StartCoherent(env: Collaborators, picture: Option<Mat>)
    ensures Coherent(env, Start(picture))
  {
  }

  /** After a crop has been delivered and only enhance tasks from that
      crop are running: the enhanced image, if any, is the enhancement of
      the cropped bitmap. */
  predicate Settled(env: Collaborators, st: State)
  {
    st.fields.croppedBitmap.Some? &&
    (forall t :: t in st.pending ==> t == Enhancing(EnhanceTask(st.fields.croppedBitmap.value))) &&
    (st.fields.enhancedPicture.None? ||
     st.fields.enhancedPicture == Some(env.enhancePicture(st.fields.croppedBitmap.value)))
  }

  /** Enhancement replaces rather than composes: however many enhance
      presses and deliveries follow, the enhanced image is always the
      enhancement of the unchanged cropped bitmap, never of an earlier
      enhanced image. */
  lemma {:induction false} EnhanceReplaces(env: Collaborators, st: State, trace: seq<Event>)
    requires Settled(env, st)
    ensures Settled(env, Run(env, st, trace))
    ensures Run(env, st, trace).fields.croppedBitmap == st.fields.croppedBitmap
    ensures Run(env, st, trace).fields.croppedPicture == st.fields.croppedPicture
    ensures Run(env, st, trace).fields.enhancedPicture.Some? ==>
      Run(env, st, trace).fields.enhancedPicture == Some(env.enhancePicture(st.fields.croppedBitmap.value))
    decreases |trace|
  {
    if trace != [] {
      var next := Step(env, st, trace[0]);
      if trace[0].Delivered? && trace[0].index < |st.pending| {
        assert st.pending[trace[0].index] in st.pending;
        assert forall t :: t in next.pending ==> t in st.pending;
      }
      EnhanceReplaces(env, next, trace[1..]);
    }
  }

  lemma RunPair(env: Collaborators, st: State, e1: Event, e2: Event)
    ensures Run(env, st, [e1, e2]) == Step(env, Step(env, st, e1), e2)
  {
    var s1 := Step(env, st, e1);
    assert [e1, e2][1..] == [e2] && [e2][1..] == [];
    assert Run(env, st, [e1, e2]) == Run(env, s1, [e2]);
    assert Run(env, s1, [e2]) == Run(env, Step(env, s1, e2), []);
  }

  /** Pressing crop and receiving its result reaches a settled session
      holding the rectified picture. */
  lemma CropThenSettles(env: Collaborators, p: Mat, q: Corners)
    ensures Settled(env, Run(env, Start(Some(p)), [CropClicked(q), Delivered(0)]))
    ensures Run(env, Start(Some(p)), [CropClicked(q), Delivered(0)]).pending == []
    ensures Run(env, Start(Some(p)), [CropClicked(q), Delivered(0)]).fields.croppedPicture
      == Some(env.cropPicture(p, q))
    ensures Run(env, Start(Some(p)), [CropClicked(q), Delivered(0)]).fields.croppedBitmap
      == Some(ToBitmap(env, env.cropPicture(p, q)))
  {
    var s1 := Step(env, Start(Some(p)), CropClicked(q));
    assert s1.pending == [Cropping(CropTask(p, q))];
    RunPair(env, Start(Some(p)), CropClicked(q), Delivered(0));
  }

  /** The crop guard looks only at a delivered result, so two presses
      before the first result arrives dispatch two rectifications, and the
      later delivery overwrites the earlier one. */
  lemma DoubleCropDispatch(env: Collaborators, p: Mat, q1: Corners, q2: Corners)
    ensures Run(env, Start(Some(p)), [CropClicked(q1), CropClicked(q2)]).pending
      == [Cropping(CropTask(p, q1)), Cropping(CropTask(p, q2))]
    ensures Run(env, Start(Some(p)), [CropClicked(q1), CropClicked(q2), Delivered(0), Delivered(0)])
      .fields.croppedPicture == Some(env.cropPicture(p, q2))
  {
    var s0 := Start(Some(p));
    var s2 := Step(env, Step(env, s0, CropClicked(q1)), CropClicked(q2));
    assert s2.pending == [Cropping(CropTask(p, q1)), Cropping(CropTask(p, q2))];
    var s3 := Step(env, s2, Delivered(0));
    assert s3.pending == [Cropping(CropTask(p, q2))];
    RunPair(env, s0, CropClicked(q1), CropClicked(q2));
    RunPair(env, s2, Delivered(0), Delivered(0));
    RunConcat(env, s0, [CropClicked(q1), CropClicked(q2)], [Delivered(0), Delivered(0)]);
    assert [CropClicked(q1), CropClicked(q2)] + [Delivered(0), Delivered(0)]
      == [CropClicked(q1), CropClicked(q2), Delivered(0), Delivered(0)];
  }

  /** The state the late-delivery trace of StaleEnhancement reaches. */
  lemma {:induction false} StaleTrace(env: Collaborators, p: Mat, q1: Corners, q2: Corners)
    ensures
      var b1 := ToBitmap(env, env.cropPicture(p, q1));
      Run(env, Start(Some(p)),
        [CropClicked(q1), CropClicked(q2), Delivered(0), EnhanceClicked, Delivered(1), Delivered(0)])
      == State(Fields(Some(p), Some(env.cropPicture(p, q2)), Some(ToBitmap(env, env.cropPicture(p, q2))),
                      Some(env.enhancePicture(b1))), [])
  {
    var c1, c2 := env.cropPicture(p, q1), env.cropPicture(p, q2);
    var b1 := ToBitmap(env, c1);
    var presses := [CropClicked(q1), CropClicked(q2)];
    var middle := [Delivered(0), EnhanceClicked];
    var last := [Delivered(1), Delivered(0)];
    var s0 := Start(Some(p));
    var s2 := State(InitialFields(Some(p)), [Cropping(CropTask(p, q1)), Cropping(CropTask(p, q2))]);
    assert Run(env, s0, presses) == s2 by {
      RunPair(env, s0, CropClicked(q1), CropClicked(q2));
    }
    var f3 := Fields(Some(p), Some(c1), Some(b1), None);
    var s4 := State(f3, [Cropping(CropTask(p, q2)), Enhancing(EnhanceTask(b1))]);
    assert Run(env, s2, middle) == s4 by {
      RunPair(env, s2, Delivered(0), EnhanceClicked);
      assert Step(env, s2, Delivered(0)) == State(f3, [Cropping(CropTask(p, q2))]);
    }
    var s5 := State(f3.(enhancedPicture := Some(env.enhancePicture(b1))), [Cropping(CropTask(p, q2))]);
    assert Run(env, s4, last) == State(DeliverCrop(env, s5.fields, c2), []) by {
      RunPair(env, s4, Delivered(1), Delivered(0));
      assert Step(env, s4, Delivered(1)) == s5;
    }
    RunConcat(env, s2, middle, last);
    RunConcat(env, s0, presses, middle + last);
    assert presses + (middle + last)
      == [CropClicked(q1), CropClicked(q2), Delivered(0), EnhanceClicked, Delivered(1), Delivered(0)];
  }

  /** A crop result delivered late, after an enhancement, leaves the
      enhanced image stale: it is the enhancement of the first cropped
      bitmap while the presenter now holds the second one, and save writes
      the stale image under the enhance_ prefix. */
  lemma StaleEnhancement(env: Collaborators, p: Mat, q1: Corners, q2: Corners, millis: nat)
    ensures
      var st := Run(env, Start(Some(p)),
        [CropClicked(q1), CropClicked(q2), Delivered(0), EnhanceClicked, Delivered(1), Delivered(0)]);
      var b1 := ToBitmap(env, env.cropPicture(p, q1));
      var b2 := ToBitmap(env, env.cropPicture(p, q2));
      st.pending == [] &&
      st.fields.croppedBitmap == Some(b2) &&
      st.fields.enhancedPicture == Some(env.enhancePicture(b1)) &&
      SaveSelection(st.fields, true, millis)
        == Some(SavedFile(ImagesDir, SaveName(EnhancePrefix, millis), env.enhancePicture(b1)))
  {
    StaleTrace(env, p, q1, q2);
  }

  /** Crop, enhance twice, and save: the file written is the single
      enhancement of the cropped bitmap, under the enhance_ prefix. */
  lemma CropEnhanceTwiceSave(env: Collaborators, p: Mat, q: Corners, millis: nat)
    ensures
      var st := Run(env, Start(Some(p)),
        [CropClicked(q), Delivered(0), EnhanceClicked, EnhanceClicked, Delivered(1), Delivered(0)]);
      var cropped := ToBitmap(env, env.cropPicture(p, q));
      st.fields.enhancedPicture == Some(env.enhancePicture(cropped)) &&
      SaveSelection(st.fields, true, millis)
        == Some(SavedFile(ImagesDir, SaveName(EnhancePrefix, millis), env.enhancePicture(cropped)))
  {
    var crop := [CropClicked(q), Delivered(0)];
    var presses := [EnhanceClicked, EnhanceClicked];
    var deliveries := [Delivered(1), Delivered(0)];
    var s0 := Start(Some(p));
    CropThenSettles(env, p, q);
    var s2 := Run(env, s0, crop);
    var s4 := Run(env, s2, presses);
    RunPair(env, s2, EnhanceClicked, EnhanceClicked);
    assert |s4.pending| == 2;
    var s6 := Run(env, s4, deliveries);
    RunPair(env, s4, Delivered(1), Delivered(0));
    assert s6.fields.enhancedPicture.Some?;
    EnhanceReplaces(env, s2, presses + deliveries);
    RunConcat(env, s2, presses, deliveries);
    RunConcat(env, s0, crop, presses + deliveries);
    assert crop + (presses + deliveries)
      == [CropClicked(q), Delivered(0), EnhanceClicked, EnhanceClicked, Delivered(1), Delivered(0)];
  }
}
