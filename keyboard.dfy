/**
 * The key map of the demo: an object from lower-cased key names to booleans
 * that the keydown and keyup listeners overwrite one entry at a time, and the
 * reads of it made by the frame step (movement direction) and the slide.
 */
module Keyboard {

  /** ASCII lower-casing of one character; other characters are unchanged. */
  function LowerChar(c: char): (r: char)
    ensures !('A' <= r <= 'Z')
    ensures 'A' <= c <= 'Z' ==> r as int == c as int + 32
    ensures !('A' <= c <= 'Z') ==> r == c
  {
    if 'A' <= c <= 'Z' then (c as int + 32) as char else c
  }

  /** `toLowerCase`, character by character. */
  function Lower(s: string): (r: string)
    ensures |r| == |s|
    ensures forall k :: 0 <= k < |s| ==> r[k] == LowerChar(s[k])
  {
    if s == [] then [] else [LowerChar(s[0])] + Lower(s[1..])
  }

  /** Lower-casing twice is lower-casing once. */
  lemma LowerIdempotent(s: string)
    ensures Lower(Lower(s)) == Lower(s)
  {
    var once := Lower(s);
    assert forall k :: 0 <= k < |s| ==> Lower(once)[k] == once[k];
  }

  type KeyMap = map<string, bool>

  /** The key object as the script creates it. */
  const InitialKeys: KeyMap :=
    map["w" := false, "a" := false, "s" := false, "d" := false,
        "shift" := false, "c" := false, "space" := false]

  /** The names the script ever reads from the key object. */
  const ReadKeys: set<string> := {"w", "a", "s", "d", "shift", "c"}

  /** A read `keys.k`: a missing entry reads as undefined, which is falsy. */
  predicate Held(keys: KeyMap, k: string) {
    k in keys && keys[k]
  }

  /** The keydown (`down`) or keyup (`!down`) listener for key `key`. */
  function SetKey(keys: KeyMap, key: string, down: bool): (t: KeyMap)
    ensures Lower(key) in t && t[Lower(key)] == down
    ensures t.Keys == keys.Keys + {Lower(key)}
    ensures forall k :: k in keys && k != Lower(key) ==> t[k] == keys[k]
  {
    keys[Lower(key) := down]
  }

  function Flag(b: bool): (n: int)
    ensures 0 <= n <= 1
  {
    if b then 1 else 0
  }

  /** The x component of the direction before normalising: right minus left. */
  function DirX(keys: KeyMap): (x: int)
    ensures -1 <= x <= 1
    ensures x == 0 <==> Held(keys, "a") == Held(keys, "d")
    ensures x == 1 <==> Held(keys, "d") && !Held(keys, "a")
  {
    Flag(Held(keys, "d")) - Flag(Held(keys, "a"))
  }

  /** The z component of the direction before normalising: back minus forward. */
  function DirZ(keys: KeyMap): (z: int)
    ensures -1 <= z <= 1
    ensures z == 0 <==> Held(keys, "w") == Held(keys, "s")
    ensures z == 1 <==> Held(keys, "s") && !Held(keys, "w")
  {
    Flag(Held(keys, "s")) - Flag(Held(keys, "w"))
  }

  /** The slide runs only while both shift and c are held. */
  predicate Sliding(keys: KeyMap) {
    Held(keys, "shift") && Held(keys, "c")
  }

  /** An event for a key whose name is never read changes nothing that is read. */
  lemma UnreadKeyIgnored(keys: KeyMap, key: string, down: bool)
    requires Lower(key) !in ReadKeys
    ensures forall k :: k in ReadKeys ==> Held(SetKey(keys, key, down), k) == Held(keys, k)
    ensures DirX(SetKey(keys, key, down)) == DirX(keys)
    ensures DirZ(SetKey(keys, key, down)) == DirZ(keys)
    ensures Sliding(SetKey(keys, key, down)) == Sliding(keys)
  {
  }
}
