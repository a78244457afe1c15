/**
 What an instrument_stop leaves in the ring, and the image its published entries stand for.
 */
module Stops {
  import opened RedoLog
  import opened Collection
  import opened Ring
  import opened RingTheorems

  /** What was recorded covers every byte the batch has changed, and can be read. */
  ghost predicate Recorded(shadow: Image, mem: Image, copies: seq<Copy>, table: seq<nat>) {
    shadow.Keys == mem.Keys && Readable(mem, copies, table) && Tracked(shadow, mem, copies, table)
  }

  /** Entries recorded that way bring the image to the memory they were made from. */
  lemma BatchGivesMemory(base: Image, before: seq<Entry>, shadow: Image, mem: Image, copies: seq<Copy>, table: seq<nat>)
    requires base + Delta(before) == shadow && Recorded(shadow, mem, copies, table)
    ensures base + Delta(before + StopLog(mem, copies, table)) == mem
  {
    DeltaConcat(before, StopLog(mem, copies, table));
    MergeAssoc(base, Delta(before), Delta(StopLog(mem, copies, table)));
    ImageRefinement(shadow, mem, copies, table);
  }

  /** The published log ends with the entries of an instrument_stop that saw memory `mem`. */
  ghost predicate JustPublished(s: State, before: seq<Entry>, mem: Image, cs: seq<Copy>, t: seq<nat>) {
    && s.h.pub <= |s.h.log|
    && s.h.log[..s.h.pub] == before + StopLog(mem, cs, t)
    && (s.h.base + Delta(before)).Keys == mem.Keys
    && Readable(mem, cs, t)
  }

  lemma PublishedIsMemory(s: State, before: seq<Entry>, mem: Image, cs: seq<Copy>, t: seq<nat>)
    requires JustPublished(s, before, mem, cs, t)
    ensures PublishedImage(s) == mem <==> Tracked(s.h.base + Delta(before), mem, cs, t)
  {
    DeltaConcat(before, StopLog(mem, cs, t));
    MergeAssoc(s.h.base, Delta(before), Delta(StopLog(mem, cs, t)));
    ImageRefinement(s.h.base + Delta(before), mem, cs, t);
  }

  /** What the entries of instrument_stop do to the image. */
  lemma StopShadow(base: Image, log: seq<Entry>, mem: Image, cs: seq<Copy>, t: seq<nat>)
    requires (base + Delta(log)).Keys == mem.Keys && Readable(mem, cs, t)
    ensures base + Delta(log + StopLog(mem, cs, t)) == base + Delta(log) + Delta(StopLog(mem, cs, t))
    ensures (base + Delta(log + StopLog(mem, cs, t))).Keys == mem.Keys
  {
    var stop := StopLog(mem, cs, t);
    DeltaConcat(log, stop);
    MergeAssoc(base, Delta(log), Delta(stop));
    StopMapped(mem, cs, t);
    KeysKept(base + Delta(log), Delta(stop), mem.Keys);
  }

  lemma KeysKept(image: Image, delta: Image, keys: set<int>)
    requires image.Keys == keys && delta.Keys <= keys
    ensures (image + delta).Keys == keys
  {}

  lemma StopMapped(mem: Image, cs: seq<Copy>, t: seq<nat>)
    requires Readable(mem, cs, t)
    ensures Delta(StopLog(mem, cs, t)).Keys <= mem.Keys
  {
    StopFaithful(mem, cs, t);
    forall a | a in Delta(StopLog(mem, cs, t)) ensures a in mem {
      FaithfulDelta(mem, StopLog(mem, cs, t), a);
      StopHits(mem, cs, t, a);
    }
  }

  lemma StopDone(s: State, before: seq<Entry>, mem: Image, cs: seq<Copy>, t: seq<nat>)
    requires s.h.log == before + StopLog(mem, cs, t) && s.h.pub == |s.h.log|
    requires (s.h.base + Delta(before)).Keys == mem.Keys && Readable(mem, cs, t)
    ensures JustPublished(s, before, mem, cs, t) && (s.h.base + Delta(s.h.log)).Keys == mem.Keys
    ensures s.h.base + Delta(s.h.log) == mem <==> Tracked(s.h.base + Delta(before), mem, cs, t)
  {
    StopShadow(s.h.base, before, mem, cs, t);
    ImageRefinement(s.h.base + Delta(before), mem, cs, t);
    assert s.h.log[..s.h.pub] == s.h.log;
  }
}
