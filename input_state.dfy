/**
 * The character script's `InputState` flag enumeration and the per-frame
 * key sampler `GetInputState`.
 *
 * The enumeration is declared as a bit-flag set, but the sampler only ever
 * produces one of its five named values. The value of `Right` is 0x16
 * (twenty-two), which shares its bits with `Up` (0x2) and `Down` (0x4).
 */
module InputStates {

  /** An `InputState` value; every named value fits in eight bits. */
  type InputState = bv8

  const None: InputState := 0x00
  const Up: InputState := 0x02
  const Down: InputState := 0x04
  const Left: InputState := 0x08
  const Right: InputState := 0x16

  /** One of the five named values of the enumeration. */
  predicate IsInputState(s: InputState) {
    s == None || s == Up || s == Down || s == Left || s == Right
  }

  /** One of the four directions (a named value other than `None`). */
  predicate IsDirection(s: InputState) {
    s == Up || s == Down || s == Left || s == Right
  }

  /** `Enum.HasFlag`: every bit of `flag` is also set in `s`. */
  predicate HasFlag(s: InputState, flag: InputState) {
    s & flag == flag
  }

  /** The flag values overlap: `Right` carries the bits of `Up` and `Down`, not of `Left`. */
  lemma RightOverlapsUpAndDown()
    ensures HasFlag(Right, Up) && HasFlag(Right, Down) && !HasFlag(Right, Left)
    ensures !HasFlag(Up, Right) && !HasFlag(Down, Right)
  {
  }

  /** The key-down state of the four arrow keys in one frame. */
  datatype KeySample = KeySample(left: bool, right: bool, up: bool, down: bool)

  /**
   * The sampler: the keys are checked in the order Left, Right, Up, Down and
   * each held key overwrites the choice so far.
   */
  function GetInputState(keys: KeySample): (s: InputState)
    ensures IsInputState(s)
    ensures s == None <==> !(keys.left || keys.right || keys.up || keys.down)
  {
    var afterLeft := if keys.left then Left else None;
    var afterRight := if keys.right then Right else afterLeft;
    var afterUp := if keys.up then Up else afterRight;
    if keys.down then Down else afterUp
  }

  /** A key and the state it selects when it is held. */
  datatype Binding = Binding(held: bool, state: InputState)

  /** The keys in the order the sampler checks them. */
  function CheckOrder(keys: KeySample): (order: seq<Binding>)
    ensures |order| == 4
  {
    [Binding(keys.left, Left), Binding(keys.right, Right),
     Binding(keys.up, Up), Binding(keys.down, Down)]
  }

  /** Reference reading of "later checks overwrite earlier ones": the state of the last held key. */
  function LastHeld(order: seq<Binding>): InputState
  {
    if order == [] then None
    else if order[|order| - 1].held then order[|order| - 1].state
    else LastHeld(order[..|order| - 1])
  }

  /**
   * `LastHeld` picks a held binding with no held binding after it, and
   * yields `None` exactly when no binding is held (given no binding selects `None`).
   */
  lemma {:induction false} LastHeldIsLastHeldBinding(order: seq<Binding>)
    requires forall i :: 0 <= i < |order| ==> order[i].state != None
    ensures LastHeld(order) == None <==> forall i :: 0 <= i < |order| ==> !order[i].held
    ensures LastHeld(order) != None ==>
      exists i :: 0 <= i < |order| && order[i].held && order[i].state == LastHeld(order) &&
        forall j :: i < j < |order| ==> !order[j].held
  {
    if order != [] {
      var n := |order| - 1;
      if order[n].held {
        assert order[n].state == LastHeld(order);
      } else {
        var init := order[..n];
        LastHeldIsLastHeldBinding(init);
        assert forall i :: 0 <= i < n ==> order[i] == init[i];
        if LastHeld(order) != None {
          var i :| 0 <= i < |init| && init[i].held && init[i].state == LastHeld(init) &&
            forall j :: i < j < |init| ==> !init[j].held;
          assert order[i].held && forall j :: i < j < |order| ==> !order[j].held;
        }
      }
    }
  }

  /** The sampler is the last held key in check order Left, Right, Up, Down. */
  lemma GetInputStateIsLastHeld(keys: KeySample)
    ensures GetInputState(keys) == LastHeld(CheckOrder(keys))
  {
    var order := CheckOrder(keys);
    var afterLeft := if keys.left then Left else None;
    var afterRight := if keys.right then Right else afterLeft;
    var afterUp := if keys.up then Up else afterRight;
    assert LastHeld(order[..1]) == afterLeft by { assert order[..1][..0] == []; }
    assert LastHeld(order[..2]) == afterRight by { assert order[..2][..1] == order[..1]; }
    assert LastHeld(order[..3]) == afterUp by { assert order[..3][..2] == order[..2]; }
  }

  /** Priority: Down beats Up beats Right beats Left. */
  lemma GetInputStatePriority(keys: KeySample)
    ensures keys.down ==> GetInputState(keys) == Down
    ensures !keys.down && keys.up ==> GetInputState(keys) == Up
    ensures !keys.down && !keys.up && keys.right ==> GetInputState(keys) == Right
    ensures !keys.down && !keys.up && !keys.right && keys.left ==> GetInputState(keys) == Left
  {
  }

  /** The sampled direction always belongs to a key that is held. */
  lemma GetInputStateKeyIsHeld(keys: KeySample)
    ensures GetInputState(keys) == Left ==> keys.left
    ensures GetInputState(keys) == Right ==> keys.right
    ensures GetInputState(keys) == Up ==> keys.up
    ensures GetInputState(keys) == Down ==> keys.down
  {
  }
}
