/**
 * The string-to-string maps the request builder collects headers and query
 * parameters in (`java.util.HashMap<String, String>`), the two ways they are
 * written (`put` and `putAll`), and what a history of such writes leaves behind.
 */
module StringMaps {

  import opened Wrappers

  /** `m.get(k)`: the value `m` holds for `k`, or `None` when `k` is absent. */
  function Find(m: map<string, string>, k: string): Option<string>
  {
    if k in m then Some(m[k]) else None
  }

  /**
   * `base.putAll(top)` as a value: every entry of `top` is laid over `base`,
   * so on a key both hold the entry of `top` wins.
   */
  function Overlay(base: map<string, string>, top: map<string, string>): (r: map<string, string>)
    ensures r.Keys == base.Keys + top.Keys
    ensures forall k :: k in top ==> k in r && r[k] == top[k]
    ensures forall k :: k in base && k !in top ==> k in r && r[k] == base[k]
  {
    base + top
  }

  /** Laying the same overrides over the same base a second time changes nothing. */
  lemma OverlayIdempotent(base: map<string, string>, top: map<string, string>)
    ensures Overlay(base, Overlay(base, top)) == Overlay(base, top)
  {
  }

  /** When no key is overridden the result is the plain union, whichever side goes on top. */
  lemma OverlayDisjoint(base: map<string, string>, top: map<string, string>)
    requires base.Keys !! top.Keys
    ensures Overlay(base, top) == Overlay(top, base)
  {
  }

  /** One write into a map: `put(key, value)` or `putAll(entries)`. */
  datatype MapWrite = Put(key: string, value: string) | PutAll(entries: map<string, string>)

  /** The entries one write stores. */
  function Written(w: MapWrite): (r: map<string, string>)
    ensures w.Put? ==> r.Keys == {w.key} && r[w.key] == w.value
    ensures w.PutAll? ==> r == w.entries
  {
    match w
    case Put(k, v) => map[k := v]
    case PutAll(n) => n
  }

  /**
   * The map after one write: the keys it writes take their new values and
   * every other key keeps the value (or the absence) it had.
   */
  function Apply(m: map<string, string>, w: MapWrite): (r: map<string, string>)
    ensures r.Keys == m.Keys + Written(w).Keys
    ensures forall k :: k in Written(w) ==> r[k] == Written(w)[k]
    ensures forall k :: k !in Written(w) ==> Find(r, k) == Find(m, k)
  {
    match w
    case Put(k, v) => m[k := v]
    case PutAll(n) => Overlay(m, n)
  }

  /** The map after the writes `ws`, performed in order, starting from `m`. */
  function Replay(m: map<string, string>, ws: seq<MapWrite>): map<string, string>
    decreases |ws|
  {
    if ws == [] then m else Replay(Apply(m, ws[0]), ws[1..])
  }

  /**
   * Reference definition, read from the end of the history: the value stored
   * by the latest write in `ws` that writes `k`, or `None` if none does.
   */
  function LastWrite(ws: seq<MapWrite>, k: string): Option<string>
    decreases |ws|
  {
    if ws == [] then None
    else if k in Written(ws[|ws| - 1]) then Some(Written(ws[|ws| - 1])[k])
    else LastWrite(ws[..|ws| - 1], k)
  }

  /** Replaying one more write is applying it to what the earlier writes left. */
  lemma {:induction false} ReplayAppend(m: map<string, string>, ws: seq<MapWrite>, w: MapWrite)
    ensures Replay(m, ws + [w]) == Apply(Replay(m, ws), w)
    decreases |ws|
  {
    if ws == [] {
      assert [w][1..] == [];
    } else {
      assert (ws + [w])[0] == ws[0];
      assert (ws + [w])[1..] == ws[1..] + [w];
      ReplayAppend(Apply(m, ws[0]), ws[1..], w);
    }
  }

  /**
   * Last write wins: after the writes `ws`, key `k` holds the value of the
   * latest write to `k`; a key no write touches keeps its value in `m`.
   */
  lemma {:induction false} ReplayLastWriteWins(m: map<string, string>, ws: seq<MapWrite>, k: string)
    ensures Find(Replay(m, ws), k) == if LastWrite(ws, k).Some? then LastWrite(ws, k) else Find(m, k)
    decreases |ws|
  {
    if ws != [] {
      var init, w := ws[..|ws| - 1], ws[|ws| - 1];
      assert ws == init + [w];
      ReplayAppend(m, init, w);
      ReplayLastWriteWins(m, init, k);
    }
  }

  /** A `java.util.HashMap<String, String>` object: mutable and shared by reference. */
  class HashMap {

    var entries: map<string, string>

    /** `new HashMap<>()` */
    constructor ()
      ensures entries == map[]
    {
      entries := map[];
    }

    /** `new HashMap<>(source)`: a fresh map holding a copy of the entries of `source`. */
    constructor Copy(source: map<string, string>)
      ensures entries == source
    {
      entries := source;
    }

    /** `put(key, value)` */
    method Put(key: string, value: string)
      modifies this
      ensures entries == Apply(old(entries), MapWrite.Put(key, value))
    {
      entries := entries[key := value];
    }

    /** `putAll(source)` */
    method PutAll(source: map<string, string>)
      modifies this
      ensures entries == Apply(old(entries), MapWrite.PutAll(source))
    {
      entries := Overlay(entries, source);
    }
  }
}
