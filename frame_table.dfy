/**
 * The animation frame table of the character script and the lookup that
 * picks a direction's frames from it.
 *
 * The table is a dictionary from `InputState` to four sprite-sheet frame
 * indices, filled in the order Left, Right, Up, Down and enumerated in that
 * order. The script does not index it by key: it takes the first entry whose
 * key is a flag of the state (`HasFlag`), and on a miss it gets the default
 * entry, whose frame array is null.
 */
module FrameTable {
  import opened InputStates

  /** One dictionary entry: a key and its frame indices. */
  datatype Entry = Entry(key: InputState, frames: seq<int>)

  /** Result of a lookup; `NotFound` stands for the default entry's null frame array. */
  datatype Lookup = Found(frames: seq<int>) | NotFound

  /** The table in its enumeration order. */
  const AnimationFrames: seq<Entry> := [
    Entry(Left, [4, 5, 6, 7]),
    Entry(Right, [12, 13, 14, 15]),
    Entry(Up, [8, 9, 10, 11]),
    Entry(Down, [0, 1, 2, 3])
  ]

  /**
   * Position of the first entry whose key is a flag of `s`, or `|table|`
   * when there is none.
   */
  function FirstMatchIndex(table: seq<Entry>, s: InputState): (k: nat)
    ensures k <= |table|
    ensures forall j :: 0 <= j < k ==> !HasFlag(s, table[j].key)
    ensures k < |table| ==> HasFlag(s, table[k].key)
  {
    if table == [] then 0
    else if HasFlag(s, table[0].key) then 0
    else 1 + FirstMatchIndex(table[1..], s)
  }

  /** `FirstOrDefault(entry => s.HasFlag(entry.Key))`, followed by `.Value`. */
  function FirstFlagMatch(table: seq<Entry>, s: InputState): (r: Lookup)
    ensures r == NotFound <==> forall j :: 0 <= j < |table| ==> !HasFlag(s, table[j].key)
    ensures r.Found? ==>
      exists k :: 0 <= k < |table| && HasFlag(s, table[k].key) && r.frames == table[k].frames &&
        forall j :: 0 <= j < k ==> !HasFlag(s, table[j].key)
  {
    var k := FirstMatchIndex(table, s);
    if k < |table| then Found(table[k].frames) else NotFound
  }

  /** Reference lookup by exact key, as the dictionary's indexer would do it. */
  function KeyLookup(table: seq<Entry>, s: InputState): Lookup
  {
    if table == [] then NotFound
    else if table[0].key == s then Found(table[0].frames)
    else KeyLookup(table[1..], s)
  }

  /** Exact-key lookup returns the entry of the first occurrence of the key. */
  lemma {:induction false} KeyLookupFindsFirstKey(table: seq<Entry>, k: nat)
    requires k < |table|
    requires forall j :: 0 <= j < k ==> table[j].key != table[k].key
    ensures KeyLookup(table, table[k].key) == Found(table[k].frames)
  {
    if k > 0 {
      assert table[1..][k - 1] == table[k];
      KeyLookupFindsFirstKey(table[1..], k - 1);
    }
  }

  /** The frames the script uses for state `s`. */
  function FramesFor(s: InputState): Lookup
  {
    FirstFlagMatch(AnimationFrames, s)
  }

  /**
   * The first-match flag search agrees with lookup by exact key when every
   * entry that is a flag of `s` without being `s` itself comes after an entry
   * whose key is `s`.
   */
  lemma {:induction false} FlagMatchIsKeyLookup(table: seq<Entry>, s: InputState)
    requires forall j :: 0 <= j < |table| && HasFlag(s, table[j].key) && table[j].key != s ==>
      exists i :: 0 <= i < j && table[i].key == s
    ensures FirstFlagMatch(table, s) == KeyLookup(table, s)
  {
    if table != [] {
      if table[0].key == s {
        assert HasFlag(s, table[0].key);
      } else if !HasFlag(s, table[0].key) {
        var tail := table[1..];
        forall j | 0 <= j < |tail| && HasFlag(s, tail[j].key) && tail[j].key != s
          ensures exists i :: 0 <= i < j && tail[i].key == s
        {
          assert table[j + 1] == tail[j];
          var i :| 0 <= i < j + 1 && table[i].key == s;
          assert tail[i - 1].key == s;
        }
        FlagMatchIsKeyLookup(tail, s);
      }
    }
  }

  /**
   * Despite `Right` carrying the bits of `Up` and `Down`, the search over the
   * table in its order returns every state's own entry, and nothing for `None`.
   */
  lemma FramesForIsOwnEntry(s: InputState)
    requires IsInputState(s)
    ensures FramesFor(s) == KeyLookup(AnimationFrames, s)
  {
    var t := AnimationFrames;
    forall j | 0 <= j < |t| && HasFlag(s, t[j].key) && t[j].key != s
      ensures exists i :: 0 <= i < j && t[i].key == s
    {
      assert s == Right && j >= 2;
      assert t[1].key == s;
    }
    FlagMatchIsKeyLookup(t, s);
  }

  /** The frames each state selects. */
  lemma FramesForValues()
    ensures FramesFor(Left) == Found([4, 5, 6, 7])
    ensures FramesFor(Right) == Found([12, 13, 14, 15])
    ensures FramesFor(Up) == Found([8, 9, 10, 11])
    ensures FramesFor(Down) == Found([0, 1, 2, 3])
    ensures FramesFor(None) == NotFound
  {
    FramesForIsOwnEntry(Left);
    FramesForIsOwnEntry(Right);
    FramesForIsOwnEntry(Up);
    FramesForIsOwnEntry(Down);
    FramesForIsOwnEntry(None);
    KeyLookupFindsFirstKey(AnimationFrames, 2);
    KeyLookupFindsFirstKey(AnimationFrames, 3);
  }

  /** Every direction finds four frames; distinct directions find distinct frames. */
  lemma FramesForDirection(d: InputState)
    requires IsDirection(d)
    ensures FramesFor(d).Found? && |FramesFor(d).frames| == 4
    ensures forall e :: IsDirection(e) && e != d ==> FramesFor(e) != FramesFor(d)
  {
    FramesForValues();
  }
}
