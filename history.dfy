/**
 * The browser's session history as the HTML Living Standard describes it
 * (the History interface and its session history entries): a list of
 * entry URLs with a current index. pushState discards the entries after
 * the current one and appends a new current entry; back and forward move
 * the index. Only the pathname of each entry is kept.
 */
module History {

  datatype Session = Session(entries: seq<string>, index: nat)

  /** The current index designates an entry. */
  predicate ValidSession(s: Session) {
    s.index < |s.entries|
  }

  /** window.location.pathname: the URL of the current entry. */
  function LocationOf(s: Session): string
    requires ValidSession(s)
  {
    s.entries[s.index]
  }

  /** history.pushState(state, "", url). */
  function PushEntry(s: Session, url: string): (r: Session)
    requires ValidSession(s)
    ensures ValidSession(r)
    ensures LocationOf(r) == url && |r.entries| == s.index + 2 && r.index == s.index + 1
    ensures r.entries[..s.index + 1] == s.entries[..s.index + 1]
  {
    Session(s.entries[..s.index + 1] + [url], s.index + 1)
  }

  /** history.back(): one entry back, if there is one. */
  function StepBack(s: Session): (r: Session)
    requires ValidSession(s)
    ensures ValidSession(r)
    ensures r.entries == s.entries
    ensures s.index > 0 ==> LocationOf(r) == s.entries[s.index - 1]
    ensures s.index == 0 ==> r == s
  {
    if s.index == 0 then s else s.(index := s.index - 1)
  }

  /** history.forward(): one entry forward, if there is one. */
  function StepForward(s: Session): (r: Session)
    requires ValidSession(s)
    ensures ValidSession(r)
    ensures r.entries == s.entries
    ensures s.index + 1 < |s.entries| ==> LocationOf(r) == s.entries[s.index + 1]
    ensures s.index + 1 == |s.entries| ==> r == s
  {
    if s.index + 1 == |s.entries| then s else s.(index := s.index + 1)
  }

  /**
   * A push makes `url` current, keeps every entry up to the old current
   * one, and drops the entries that were ahead of it.
   */
  lemma PushSpec(s: Session, url: string)
    requires ValidSession(s)
    ensures LocationOf(PushEntry(s, url)) == url
    ensures PushEntry(s, url).index == s.index + 1
    ensures |PushEntry(s, url).entries| == s.index + 2
    ensures PushEntry(s, url).entries[..s.index + 1] == s.entries[..s.index + 1]
  {
  }

  /** Going back after a push returns to the entry that was current before it, entries unchanged. */
  lemma BackAfterPush(s: Session, url: string)
    requires ValidSession(s)
    ensures StepBack(PushEntry(s, url)).entries == PushEntry(s, url).entries
    ensures LocationOf(StepBack(PushEntry(s, url))) == LocationOf(s)
  {
  }

  /** Forward undoes a back that moved, and back undoes a forward that moved. */
  lemma BackForwardInverse(s: Session)
    requires ValidSession(s)
    ensures s.index > 0 ==> StepForward(StepBack(s)) == s
    ensures s.index + 1 < |s.entries| ==> StepBack(StepForward(s)) == s
  {
  }

  /** window.history with window.location, as mutable browser state. */
  class Window {
    var entries: seq<string>
    var index: nat

    predicate Valid()
      reads this
    {
      index < |entries|
    }

    function Snapshot(): Session
      reads this
    {
      Session(entries, index)
    }

    function Location(): string
      reads this
      requires Valid()
    {
      entries[index]
    }

    constructor (entries: seq<string>, index: nat)
      requires index < |entries|
      ensures Valid() && Snapshot() == Session(entries, index)
    {
      this.entries := entries;
      this.index := index;
    }

    method PushState(url: string)
      requires Valid()
      modifies this
      ensures Valid() && Snapshot() == PushEntry(old(Snapshot()), url)
    {
      entries := entries[..index + 1] + [url];
      index := index + 1;
    }

    /** A user's back action; `moved` says whether a traversal happened (and popstate fires). */
    method Back() returns (moved: bool)
      requires Valid()
      modifies this
      ensures Valid() && Snapshot() == StepBack(old(Snapshot()))
      ensures moved == (old(index) > 0)
    {
      moved := index > 0;
      if moved {
        index := index - 1;
      }
    }

    /** A user's forward action; `moved` says whether a traversal happened. */
    method Forward() returns (moved: bool)
      requires Valid()
      modifies this
      ensures Valid() && Snapshot() == StepForward(old(Snapshot()))
      ensures moved == (old(index) + 1 < |old(entries)|)
    {
      moved := index + 1 < |entries|;
      if moved {
        index := index + 1;
      }
    }
  }
}
