/**
 The head kept in the commit metadata, as a place to start the replay from.
 */
module RingMetadata {
  import opened RedoLog
  import opened RingSlots
  import opened Ring
  import opened RingInvariant
  import opened RingTheorems

  /** The metadata head is the remote head, or is about to become it. */
  predicate HeadsAgree(s: State) {
    s.metaHead == s.remoteHead || s.consumer == StoringHead
  }

  /**
   In every state of every run, crashes included, in which the two heads agree or the remote head
   is about to be stored, replay gives the same image from either.
   */
  lemma MetadataHeadEquivalent(n: nat, base: Image, ss: seq<State>, acts: seq<Step>, i: nat,
                               buf: seq<Entry>, image: Image)
    requires IsRun(n, base, ss, acts) && AllRefreshesFresh(n, ss, acts) && i < |ss|
    requires HeadsAgree(ss[i])
    requires Survives(n, ss[i], buf, image)
    ensures Shaped(n, ss[i])
    ensures Replay(n, buf, ss[i].metaHead, ss[i].remoteTail, image)
         == Replay(n, buf, ss[i].remoteHead, ss[i].remoteTail, image)
  {
    RunInv(n, base, ss, acts, i);
    ReplayAfterCrash(n, ss[i], buf, image);
    if ss[i].metaHead != ss[i].remoteHead {
      ReplayFromMeta(n, ss[i], buf, image);
    }
  }

  /** Before the first crash the two heads always agree. */
  lemma HeadsAgreeBeforeCrash(n: nat, base: Image, ss: seq<State>, acts: seq<Step>, i: nat)
    requires IsRun(n, base, ss, acts) && AllRefreshesFresh(n, ss, acts) && i < |ss|
    requires ss[i].h.crashes == 0
    ensures HeadsAgree(ss[i])
  {
    RunInv(n, base, ss, acts, i);
  }

  /** After a crash they agree from the first batch that recovery commits on. */
  lemma HeadsAgreeAfterCommit(n: nat, s: State, a: Step)
    requires Inv(n, s) && Enabled(n, s, a) && !a.Crash?
    requires HeadsAgree(s) || a.PersistMeta?
    ensures HeadsAgree(Do(n, s, a))
  {}

  lemma ReplayMeta(n: nat, s: State, buf: seq<Entry>, image: Image)
    requires Inv(n, s) && Survives(n, s, buf, image)
    ensures Replay(n, buf, s.metaHead, s.remoteTail, image) == image + Delta(s.h.log[s.h.meta..s.h.pub])
  {
    CrashBuffer(n, s, buf);
    ReplayFrom(n, s, buf, image, s.h.meta, s.metaHead);
  }

  /** Between the two stores of a commit the metadata head skips a batch that is fully fenced. */
  lemma ReplayFromMeta(n: nat, s: State, buf: seq<Entry>, image: Image)
    requires Inv(n, s) && Survives(n, s, buf, image) && s.consumer == StoringHead
    ensures Replay(n, buf, s.metaHead, s.remoteTail, image) == PublishedImage(s)
  {
    ReplayMeta(n, s, buf, image);
    assert Torn(s) == {};
    TornRepaired(s.image, image, s.h.base, s.h.log, s.h.meta, Applied(s), s.h.pub, {});
  }

  /** What a replay from the metadata head still writes. */
  ghost function Rest(s: State): Image
    requires s.h.meta <= s.h.pub <= |s.h.log|
  {
    Delta(s.h.log[s.h.meta..s.h.pub])
  }

  /** The image a crash that spoils byte `a` may leave. */
  function Spoilt(image: Image, a: int, published: Image): Image {
    image[a := if a in published then published[a] + 1 else 0]
  }

  /** A spoilt byte shows unless it is written again. */
  lemma SpoiltShows(image: Image, a: int, published: Image, rest: Image)
    requires Spoilt(image, a, published) + rest == published
    ensures a in rest
  {
    assert a in Spoilt(image, a, published) + rest;
  }

  lemma SpoiltSurvives(n: nat, s: State, a: int, published: Image)
    requires Shaped(n, s) && a in Torn(s)
    ensures Survives(n, s, s.buf, Spoilt(s.image, a, published))
  {
    assert Spoilt(s.image, a, published) - Torn(s) == s.image - Torn(s);
  }

  /** Bytes a crash may spoil are harmless if they are written again. */
  lemma SpoiltRepaired(image: Image, image': Image, rest: Image, torn: set<int>)
    requires image' - torn == image - torn && torn <= rest.Keys
    ensures image' + rest == image + rest
  {
    forall a | a !in rest.Keys
      ensures a in image' <==> a in image
      ensures a in image ==> image'[a] == image[a]
    {
      assert a in image' - torn <==> a in image - torn;
      if a in image {
        assert (image' - torn)[a] == (image - torn)[a];
      }
    }
    assert (image' + rest).Keys == (image + rest).Keys;
  }

  /**
   Replay from the metadata head gives the published image whatever the crash leaves, if and only
   if every byte the crash may spoil is written again and the present image already holds
   everything that is skipped.
   */
  lemma MetadataHeadExact(n: nat, s: State)
    requires Inv(n, s)
    ensures (forall buf, image | Survives(n, s, buf, image) ::
               Replay(n, buf, s.metaHead, s.remoteTail, image) == PublishedImage(s))
       <==> Torn(s) <= Rest(s).Keys && s.image + Rest(s) == PublishedImage(s)
  {
    var good := forall buf, image | Survives(n, s, buf, image) ::
                  Replay(n, buf, s.metaHead, s.remoteTail, image) == PublishedImage(s);
    if good {
      NothingSpoilt(n, s);
    }
    if Torn(s) <= Rest(s).Keys && s.image + Rest(s) == PublishedImage(s) {
      forall buf, image | Survives(n, s, buf, image)
        ensures Replay(n, buf, s.metaHead, s.remoteTail, image) == PublishedImage(s)
      {
        ReplayMeta(n, s, buf, image);
        SpoiltRepaired(s.image, image, Rest(s), Torn(s));
      }
    }
  }

  lemma NothingSpoilt(n: nat, s: State)
    requires Inv(n, s)
    requires forall buf, image | Survives(n, s, buf, image) ::
               Replay(n, buf, s.metaHead, s.remoteTail, image) == PublishedImage(s)
    ensures Torn(s) <= Rest(s).Keys && s.image + Rest(s) == PublishedImage(s)
  {
    var published := PublishedImage(s);
    assert Survives(n, s, s.buf, s.image);
    ReplayMeta(n, s, s.buf, s.image);
    forall a | a in Torn(s) ensures a in Rest(s) {
      var image := Spoilt(s.image, a, published);
      SpoiltSurvives(n, s, a, published);
      ReplayMeta(n, s, s.buf, image);
      SpoiltShows(s.image, a, published, Rest(s));
    }
  }

  // ---------------------------------------------------------------- what the counters decide

  /** The bytes of the entries that neither the image need hold yet nor a replay from the metadata head writes. */
  ghost function Skipped(s: State): set<int>
    requires s.h.meta <= |s.h.log|
  {
    if Applied(s) <= s.h.meta then Delta(s.h.log[Applied(s)..s.h.meta]).Keys else {}
  }

  /** The image may be any that the counters allow, and a crash may leave anything it can. */
  ghost predicate AnyOutcome(n: nat, s: State, image0: Image, buf: seq<Entry>, image: Image) {
    DataOk(s.(image := image0)) && Survives(n, s.(image := image0), buf, image)
  }

  /**
   Replay from the metadata head gives the published image in every outcome the counters allow, if
   and only if every byte that a crash may spoil and every byte of the skipped entries is written
   again by a later entry.
   */
  lemma MetadataHeadByCounters(n: nat, s: State)
    requires Inv(n, s)
    ensures (forall image0, buf, image | AnyOutcome(n, s, image0, buf, image) ::
               Replay(n, buf, s.metaHead, s.remoteTail, image) == PublishedImage(s))
       <==> Torn(s) + Skipped(s) <= Rest(s).Keys
  {
    if Torn(s) + Skipped(s) <= Rest(s).Keys {
      forall image0, buf, image | AnyOutcome(n, s, image0, buf, image)
        ensures Replay(n, buf, s.metaHead, s.remoteTail, image) == PublishedImage(s)
      {
        OutcomeRepaired(n, s, image0, buf, image);
      }
    }
    if forall image0, buf, image | AnyOutcome(n, s, image0, buf, image) ::
         Replay(n, buf, s.metaHead, s.remoteTail, image) == PublishedImage(s) {
      NothingSkipped(n, s);
    }
  }

  /** Skipped entries are harmless if their bytes are written again. */
  lemma SkippedRewritten(s: State, image: Image)
    requires ImageOk(image, s.h.base, s.h.log, Applied(s), s.h.pub)
    requires s.h.meta <= s.h.pub && Skipped(s) <= Rest(s).Keys
    ensures image + Rest(s) == PublishedImage(s)
  {
    if Applied(s) <= s.h.meta {
      DeltaSplit(s.h.log, Applied(s), s.h.meta, s.h.pub);
      Overwritten(image, Delta(s.h.log[Applied(s)..s.h.meta]), Rest(s));
    } else {
      TornRepaired(image, image, s.h.base, s.h.log, s.h.meta, Applied(s), s.h.pub, {});
    }
  }

  lemma RingOkOf(n: nat, s: State, image: Image)
    requires RingOk(n, s)
    ensures RingOk(n, s.(image := image))
  {
    var s' := s.(image := image);
    assert CursorsOk(n, s') && RecoveryOk(s');
    assert ContentsOk(n, s');
    assert InBatches(s');
  }

  lemma SameButImage(s: State, s0: State)
    requires s0 == s.(image := s0.image)
    ensures s0.h == s.h && s0.metaHead == s.metaHead && s0.remoteTail == s.remoteTail
    ensures Torn(s0) == Torn(s) && Applied(s0) == Applied(s)
  {}

  lemma ReplayOutcome(n: nat, s: State, image0: Image, buf: seq<Entry>, image: Image)
    requires RingOk(n, s) && AnyOutcome(n, s, image0, buf, image)
    ensures Replay(n, buf, s.metaHead, s.remoteTail, image) == image + Rest(s)
    ensures ImageOk(image0, s.h.base, s.h.log, Applied(s), s.h.pub)
    ensures image - Torn(s) == image0 - Torn(s)
  {
    var s0 := s.(image := image0);
    RingOkOf(n, s, image0);
    SameButImage(s, s0);
    ReplayMeta(n, s0, buf, image);
  }

  lemma OutcomeRepaired(n: nat, s: State, image0: Image, buf: seq<Entry>, image: Image)
    requires Inv(n, s) && Torn(s) + Skipped(s) <= Rest(s).Keys && AnyOutcome(n, s, image0, buf, image)
    ensures Replay(n, buf, s.metaHead, s.remoteTail, image) == PublishedImage(s)
  {
    ReplayOutcome(n, s, image0, buf, image);
    SkippedRewritten(s, image0);
    SpoiltRepaired(image0, image, Rest(s), Torn(s));
  }

  lemma Overwritten(image: Image, skipped: Image, rest: Image)
    requires skipped.Keys <= rest.Keys
    ensures image + (skipped + rest) == image + rest
  {}

  lemma NothingSkipped(n: nat, s: State)
    requires Inv(n, s)
    requires forall image0, buf, image | AnyOutcome(n, s, image0, buf, image) ::
               Replay(n, buf, s.metaHead, s.remoteTail, image) == PublishedImage(s)
    ensures Torn(s) + Skipped(s) <= Rest(s).Keys
  {
    forall buf, image | Survives(n, s, buf, image)
      ensures Replay(n, buf, s.metaHead, s.remoteTail, image) == PublishedImage(s)
    {
      PresentOutcome(n, s, buf, image);
    }
    NothingSpoilt(n, s);
    forall a | a in Skipped(s) ensures a in Rest(s) {
      SkippedShows(n, s, a);
    }
  }

  lemma PresentOutcome(n: nat, s: State, buf: seq<Entry>, image: Image)
    requires DataOk(s) && Survives(n, s, buf, image)
    ensures AnyOutcome(n, s, s.image, buf, image)
  {
    assert s.(image := s.image) == s;
  }

  lemma SkippedShows(n: nat, s: State, a: int)
    requires Inv(n, s) && a in Skipped(s)
    ensures var image := Spoilt(s.image, a, PublishedImage(s));
            && AnyOutcome(n, s, image, s.buf, image)
            && (Replay(n, s.buf, s.metaHead, s.remoteTail, image) == PublishedImage(s) ==> a in Rest(s))
  {
    var published := PublishedImage(s);
    var image := Spoilt(s.image, a, published);
    MayBeSpoilt(n, s, a, image);
    ReplayOutcome(n, s, image, s.buf, image);
    SpoiltMustShow(s.image, a, published, Rest(s));
  }

  lemma SpoiltMustShow(image: Image, a: int, published: Image, rest: Image)
    ensures Spoilt(image, a, published) + rest == published ==> a in rest
  {
    if Spoilt(image, a, published) + rest == published {
      SpoiltShows(image, a, published, rest);
    }
  }

  /** The counters say nothing about a byte of an entry still to be applied. */
  lemma MayBeSpoilt(n: nat, s: State, a: int, image: Image)
    requires |s.buf| == n && DataOk(s) && s.h.meta <= s.h.pub && a in Skipped(s)
    requires image - {a} == s.image - {a}
    ensures AnyOutcome(n, s, image, s.buf, image)
  {
    SkippedIsLeft(s, a);
    SpoiltRepaired(s.image, image, Delta(s.h.log[Applied(s)..s.h.pub]), {a});
    OutcomeOf(n, s, image);
  }

  lemma SkippedIsLeft(s: State, a: int)
    requires s.h.meta <= s.h.pub <= |s.h.log| && a in Skipped(s)
    ensures a in Delta(s.h.log[Applied(s)..s.h.pub])
  {
    DeltaSplit(s.h.log, Applied(s), s.h.meta, s.h.pub);
  }

  lemma OutcomeOf(n: nat, s: State, image: Image)
    requires |s.buf| == n && ImageOk(image, s.h.base, s.h.log, Applied(s), s.h.pub)
    requires PendingOk(s.pending, s.h.log, s.h.com, Applied(s))
    ensures AnyOutcome(n, s, image, s.buf, image)
  {
    SameButImage(s, s.(image := image));
  }
}
