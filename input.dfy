/**
 * The held-key table filled by the keydown and keyup handlers.  A key that
 * was never pressed is absent, and reads as not held.
 */
module Input {

  type KeyMap = map<string, bool>

  const ArrowLeft: string := "ArrowLeft"
  const ArrowRight: string := "ArrowRight"
  const Space: string := " "

  /** `keys[k]` is truthy: present and true. */
  predicate Held(keys: KeyMap, k: string)
  {
    k in keys && keys[k]
  }

  /** The table after every entry is set to false, as `clearKeys` leaves it. */
  function Released(keys: KeyMap): (r: KeyMap)
    ensures r.Keys == keys.Keys
    ensures forall k :: k in r ==> !r[k]
    ensures forall k :: !Held(r, k)
  {
    map k | k in keys :: false
  }
}
