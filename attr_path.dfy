/** Walking a dotted key path through a container's `attrs`: `has_attr`, which
    asks whether the path is there, and the `get` helper of `waitfor`, which
    fetches the value at the end of it. */
module AttrPath {
  import opened PyValue

  type Path = seq<string>

  /** A container handle as the docker client gives it: an identity and the
      `attrs` snapshot that only `reload()` refreshes. */
  class Container {
    const id: nat
    var attrs: Value

    constructor (id: nat, attrs: Value)
      ensures this.id == id && this.attrs == attrs
    {
      this.id := id;
      this.attrs := attrs;
    }

    /** `cntr.reload()`: the snapshot the runtime reports now replaces `attrs`. */
    method Reload(snapshot: Value)
      modifies this
      ensures attrs == snapshot
    {
      attrs := snapshot;
    }
  }

  /** What `get(val, path)` computes: `val[k1][k2]...`, raising at the first step
      that Python refuses. */
  function Resolve(v: Value, path: Path): Result<Value> {
    if path == [] then Ok(v)
    else match Subscript(v, path[0])
      case Err(e) => Err(e)
      case Ok(w) => Resolve(w, path[1..])
  }

  /** What `has_attr` computes from a snapshot: for each key, `key in attrs`
      (False ends the walk), then `attrs = attrs[key]`. */
  function HasAttrOf(v: Value, path: Path): Result<bool> {
    if path == [] then Ok(true)
    else match Contains(v, path[0])
      case Err(e) => Err(e)
      case Ok(present) =>
        if !present then Ok(false)
        else match Subscript(v, path[0])
          case Err(e) => Err(e)
          case Ok(w) => HasAttrOf(w, path[1..])
  }

  /** Key `k` of the path is found in a dict at the place the first `k` keys lead to. */
  predicate KeyPresent(v: Value, path: Path, k: nat)
    requires k < |path|
  {
    match Resolve(v, path[..k])
    case Ok(w) => w.Map? && path[k] in w.entries
    case Err(_) => false
  }

  /** The first `k` keys resolve, and `key in` the value they lead to answers False. */
  predicate StepAbsent(v: Value, path: Path, k: nat)
    requires k < |path|
  {
    match Resolve(v, path[..k])
    case Ok(w) => Contains(w, path[k]) == Ok(false)
    case Err(_) => false
  }

  /** The first `k` keys resolve to something that is not a dict, and `key in` it
      either raises or answers True (so that the subscription that follows raises). */
  predicate StepRaises(v: Value, path: Path, k: nat)
    requires k < |path|
  {
    match Resolve(v, path[..k])
    case Ok(w) => !w.Map? && Contains(w, path[k]) != Ok(false)
    case Err(_) => false
  }

  /** `has_attr(cntr, path)`: the loop that rebinds its cursor one key at a time. */
  method HasAttr(cntr: Container, path: Path) returns (r: Result<bool>)
    ensures r == HasAttrOf(cntr.attrs, path)
    ensures r == Ok(true) <==> Resolve(cntr.attrs, path).Ok?
  {
    HasAttrTrueIff(cntr.attrs, path);
    var attrs := cntr.attrs;
    for i := 0 to |path|
      invariant HasAttrOf(cntr.attrs, path) == HasAttrOf(attrs, path[i..])
    {
      var key := path[i];
      var present := Contains(attrs, key);
      if present.Err? {
        return Err(present.error);
      }
      if !present.value {
        return Ok(false);
      }
      var next := Subscript(attrs, key);
      if next.Err? {
        return Err(next.error);
      }
      attrs := next.value;
    }
    r := Ok(true);
  }

  /** The `get(val, path)` helper nested in `waitfor`: `val = val[key]` for each key. */
  method Get(val: Value, path: Path) returns (r: Result<Value>)
    ensures r == Resolve(val, path)
    ensures r.Ok? <==> forall k | 0 <= k < |path| :: KeyPresent(val, path, k)
  {
    ResolveOkIff(val, path);
    var cur := val;
    for i := 0 to |path|
      invariant Resolve(val, path) == Resolve(cur, path[i..])
    {
      var next := Subscript(cur, path[i]);
      if next.Err? {
        return Err(next.error);
      }
      cur := next.value;
    }
    r := Ok(cur);
  }

  /** Shifting a prefix of the path by its first key: the walk from `v` over the
      first `k + 1` keys is the walk from `v[path[0]]` over the next `k`. */
  lemma ResolvePrefixTail(v: Value, path: Path, k: nat)
    requires k < |path|
    ensures Resolve(v, path[..k + 1]) ==
            match Subscript(v, path[0])
            case Ok(w) => Resolve(w, path[1..][..k])
            case Err(e) => Err(e)
  {
    assert path[..k + 1][1..] == path[1..][..k];
  }

  /** `get` succeeds exactly when every key is found in a dict at its level. */
  lemma {:induction false} ResolveOkIff(v: Value, path: Path)
    ensures Resolve(v, path).Ok? <==> forall k | 0 <= k < |path| :: KeyPresent(v, path, k)
  {
    if path != [] {
      var tail := path[1..];
      match Subscript(v, path[0])
      case Err(e) =>
        assert path[..0] == [];
        assert !KeyPresent(v, path, 0);
      case Ok(w) =>
        ResolveOkIff(w, tail);
        assert path[..0] == [];
        assert KeyPresent(v, path, 0);
        forall k | 0 <= k < |tail|
          ensures KeyPresent(w, tail, k) <==> KeyPresent(v, path, k + 1)
        {
          ResolvePrefixTail(v, path, k);
        }
        if forall k | 0 <= k < |tail| :: KeyPresent(w, tail, k) {
          forall k | 0 <= k < |path| ensures KeyPresent(v, path, k) {
            if k > 0 {
              assert KeyPresent(w, tail, k - 1);
            }
          }
        } else {
          var j :| 0 <= j < |tail| && !KeyPresent(w, tail, j);
          assert !KeyPresent(v, path, j + 1);
        }
    }
  }

  /** `has_attr` answers True exactly when `get` would succeed on the same snapshot:
      every key is present, level by level; the empty path is always there. */
  lemma {:induction false} HasAttrTrueIff(v: Value, path: Path)
    ensures HasAttrOf(v, path) == Ok(true) <==> Resolve(v, path).Ok?
  {
    if path != [] {
      match Subscript(v, path[0])
      case Err(e) =>
      case Ok(w) => HasAttrTrueIff(w, path[1..]);
    }
  }

  /** `has_attr` answers False exactly when, walking the keys in order, some key
      is not `in` the value reached so far. */
  lemma {:induction false} HasAttrFalseIff(v: Value, path: Path)
    ensures HasAttrOf(v, path) == Ok(false) <==> exists k | 0 <= k < |path| :: StepAbsent(v, path, k)
  {
    if path != [] {
      var tail := path[1..];
      assert path[..0] == [];
      forall k | 0 <= k < |tail|
        ensures StepAbsent(v, path, k + 1) <==>
                Subscript(v, path[0]).Ok? && StepAbsent(Subscript(v, path[0]).value, tail, k)
      {
        ResolvePrefixTail(v, path, k);
      }
      match Subscript(v, path[0])
      case Err(e) =>
        if Contains(v, path[0]) == Ok(false) {
          assert StepAbsent(v, path, 0);
        } else {
          forall k | 0 <= k < |path| ensures !StepAbsent(v, path, k) {
            if k > 0 {
              assert !(Subscript(v, path[0]).Ok?);
            }
          }
        }
      case Ok(w) =>
        HasAttrFalseIff(w, tail);
        assert !StepAbsent(v, path, 0);
        if exists k | 0 <= k < |tail| :: StepAbsent(w, tail, k) {
          var j :| 0 <= j < |tail| && StepAbsent(w, tail, j);
          assert StepAbsent(v, path, j + 1);
        }
        if exists k | 0 <= k < |path| :: StepAbsent(v, path, k) {
          var j :| 0 <= j < |path| && StepAbsent(v, path, j);
          assert j > 0;
          assert StepAbsent(w, tail, j - 1);
        }
    }
  }

  /** `has_attr` raises exactly when, walking the keys in order, it reaches a value
      that is not a dict and `key in` that value does not answer False. */
  lemma {:induction false} HasAttrRaisesIff(v: Value, path: Path)
    ensures HasAttrOf(v, path).Err? <==> exists k | 0 <= k < |path| :: StepRaises(v, path, k)
  {
    if path != [] {
      var tail := path[1..];
      assert path[..0] == [];
      forall k | 0 <= k < |tail|
        ensures StepRaises(v, path, k + 1) <==>
                Subscript(v, path[0]).Ok? && StepRaises(Subscript(v, path[0]).value, tail, k)
      {
        ResolvePrefixTail(v, path, k);
      }
      match Subscript(v, path[0])
      case Err(e) =>
        if Contains(v, path[0]) != Ok(false) {
          assert StepRaises(v, path, 0);
        } else {
          forall k | 0 <= k < |path| ensures !StepRaises(v, path, k) {
            if k > 0 {
              assert !(Subscript(v, path[0]).Ok?);
            }
          }
        }
      case Ok(w) =>
        HasAttrRaisesIff(w, tail);
        assert !StepRaises(v, path, 0);
        if exists k | 0 <= k < |tail| :: StepRaises(w, tail, k) {
          var j :| 0 <= j < |tail| && StepRaises(w, tail, j);
          assert StepRaises(v, path, j + 1);
        }
        if exists k | 0 <= k < |path| :: StepRaises(v, path, k) {
          var j :| 0 <= j < |path| && StepRaises(v, path, j);
          assert j > 0;
          assert StepRaises(w, tail, j - 1);
        }
    }
  }

  /** On a walk through dicts, the first absent key settles the answer: False,
      whatever the keys after it are. */
  lemma StopsAtFirstAbsent(v: Value, path: Path, k: nat, entries: map<string, Value>)
    requires k < |path|
    requires Resolve(v, path[..k]) == Ok(Map(entries)) && path[k] !in entries
    ensures HasAttrOf(v, path) == Ok(false)
  {
    assert StepAbsent(v, path, k);
    HasAttrFalseIff(v, path);
  }

  /** `has_attr` tests `key in` before it subscripts, so it never raises KeyError:
      any exception it lets through is a TypeError. */
  lemma {:induction false} HasAttrOnlyTypeError(v: Value, path: Path)
    ensures HasAttrOf(v, path).Err? ==> HasAttrOf(v, path).error == TypeError
  {
    if path != [] {
      match Subscript(v, path[0])
      case Err(e) =>
      case Ok(w) => HasAttrOnlyTypeError(w, path[1..]);
    }
  }
}
