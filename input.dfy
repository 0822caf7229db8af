/** The `input` object of `CreateController` and the keyboard observer that updates it. */
module Input {

  datatype Option<T> = None | Some(value: T)

  /** The four movement actions the controller tracks. */
  datatype Action = Forward | Backward | Left | Right

  /** For each action, whether its key is currently held. */
  datatype Flags = Flags(forward: bool, backward: bool, left: bool, right: bool)
  {
    predicate Held(a: Action)
    {
      match a
      case Forward => forward
      case Backward => backward
      case Left => left
      case Right => right
    }
  }

  /** The object literal the controller starts from: nothing held. */
  const Released: Flags := Flags(false, false, false, false)

  /** The binding of keys to actions. Keys are the event's `key` string, so `W` is not `w`. */
  function KeyAction(key: string): Option<Action>
  {
    if key == "w" then Some(Forward)
    else if key == "s" then Some(Backward)
    else if key == "a" then Some(Left)
    else if key == "d" then Some(Right)
    else None
  }

  /** The KEYDOWN branch: the bound flag becomes true, every other flag keeps its value. */
  function Press(f: Flags, key: string): (r: Flags)
    ensures forall a :: r.Held(a) == (f.Held(a) || KeyAction(key) == Some(a))
  {
    match KeyAction(key)
    case None => f
    case Some(Forward) => f.(forward := true)
    case Some(Backward) => f.(backward := true)
    case Some(Left) => f.(left := true)
    case Some(Right) => f.(right := true)
  }

  /** The KEYUP branch: the bound flag becomes false, every other flag keeps its value. */
  function Release(f: Flags, key: string): (r: Flags)
    ensures forall a :: r.Held(a) == (f.Held(a) && KeyAction(key) != Some(a))
  {
    match KeyAction(key)
    case None => f
    case Some(Forward) => f.(forward := false)
    case Some(Backward) => f.(backward := false)
    case Some(Left) => f.(left := false)
    case Some(Right) => f.(right := false)
  }

  /** Two flag records that agree on every action are the same record. */
  lemma SameFlags(f: Flags, g: Flags)
    requires forall a :: f.Held(a) == g.Held(a)
    ensures f == g
  {
    assert f.Held(Forward) == g.Held(Forward);
    assert f.Held(Backward) == g.Held(Backward);
    assert f.Held(Left) == g.Held(Left);
    assert f.Held(Right) == g.Held(Right);
  }

  /** A held key repeating its key-down (keyboard auto-repeat) changes nothing more. */
  lemma PressIdempotent(f: Flags, key: string)
    ensures Press(Press(f, key), key) == Press(f, key)
  {
    SameFlags(Press(Press(f, key), key), Press(f, key));
  }

  /** Releasing a key just pressed leaves its flag false, as if it had only been released. */
  lemma ReleaseAfterPress(f: Flags, key: string)
    ensures Release(Press(f, key), key) == Release(f, key)
  {
    SameFlags(Release(Press(f, key), key), Release(f, key));
  }

  /** Events of keys bound to different actions (or to none) can be applied in either order. */
  lemma DistinctKeysCommute(f: Flags, k1: string, k2: string)
    requires KeyAction(k1) != KeyAction(k2) || KeyAction(k1) == None
    ensures Press(Press(f, k1), k2) == Press(Press(f, k2), k1)
    ensures Release(Press(f, k1), k2) == Press(Release(f, k2), k1)
    ensures Release(Release(f, k1), k2) == Release(Release(f, k2), k1)
  {
    SameFlags(Press(Press(f, k1), k2), Press(Press(f, k2), k1));
    SameFlags(Release(Press(f, k1), k2), Press(Release(f, k2), k1));
    SameFlags(Release(Release(f, k1), k2), Release(Release(f, k2), k1));
  }

  /** A key with no binding leaves the flags as they were, on key-down and on key-up. */
  lemma UnboundKeyIgnored(f: Flags, key: string)
    requires KeyAction(key) == None
    ensures Press(f, key) == f && Release(f, key) == f
  {
    SameFlags(Press(f, key), f);
    SameFlags(Release(f, key), f);
  }
}
