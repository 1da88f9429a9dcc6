/** The random id generator of explorer/service/identity.py: ids are random
    numbers from 0 to 10^size written in decimal and padded with zeros to
    `size` characters, never issued twice. The list of issued ids lives in a
    shelve file under the key "idlist"; here that entry is the field `store`
    (None when the key is absent). The random numbers are the parameter
    `draws`, in the order `random.randint` would return them. */
module Identity {
  import opened Wrappers
  import opened Text

  /** The shelve key the list is stored under. */
  const Key: string := "idlist"

  /** What `__next__` does: return an id, raise, or (with the draws given
      exhausted before a fresh id came up) go on drawing. */
  datatype Issue = Issued(id: string) | Thrown(error: Error) | OutOfDraws

  /** `str(d).zfill(size)`. */
  function IdText(d: nat, size: nat): string {
    ZFill(Decimal(d), size)
  }

  /** A draw below 10^size becomes exactly `size` digits; the draw 10^size
      itself (`randint` includes its upper bound) becomes size + 1 digits. */
  lemma IdShape(d: nat, size: nat)
    requires size >= 1 && d <= Pow10(size)
    ensures forall i :: 0 <= i < |IdText(d, size)| ==> '0' <= IdText(d, size)[i] <= '9'
    ensures d < Pow10(size) ==> |IdText(d, size)| == size
    ensures d == Pow10(size) ==> |IdText(d, size)| == size + 1
  {
    DecimalLength(d, size);
    if d == Pow10(size) {
      DecimalOfPow10(size);
    }
  }

  predicate Distinct(ids: seq<string>) {
    forall i, j :: 0 <= i < j < |ids| ==> ids[i] != ids[j]
  }

  /** The index of the first draw whose id is not yet in `ids`. */
  function FirstFresh(draws: seq<nat>, ids: seq<string>, size: nat): (k: Option<nat>)
    ensures k.Some? ==> k.value < |draws| && IdText(draws[k.value], size) !in ids
    ensures k.Some? ==> forall j :: 0 <= j < k.value ==> IdText(draws[j], size) in ids
    ensures k.None? ==> forall j :: 0 <= j < |draws| ==> IdText(draws[j], size) in ids
  {
    if draws == [] then None
    else if IdText(draws[0], size) !in ids then Some(0)
    else
      match FirstFresh(draws[1..], ids, size)
      case None =>
        assert forall j :: 0 < j < |draws| ==> draws[j] == draws[1..][j - 1];
        None
      case Some(k) =>
        assert draws[k + 1] == draws[1..][k];
        assert forall j :: 0 < j <= k ==> draws[j] == draws[1..][j - 1];
        Some(k + 1)
  }

  /** A fresh draw preceded only by listed ones is the first fresh draw. */
  lemma FirstFreshAt(draws: seq<nat>, ids: seq<string>, size: nat, k: nat)
    requires k < |draws| && IdText(draws[k], size) !in ids
    requires forall j :: 0 <= j < k ==> IdText(draws[j], size) in ids
    ensures FirstFresh(draws, ids, size) == Some(k)
  {
  }

  /** With every draw listed there is no fresh one. */
  lemma FirstFreshNone(draws: seq<nat>, ids: seq<string>, size: nat)
    requires forall j :: 0 <= j < |draws| ==> IdText(draws[j], size) in ids
    ensures FirstFresh(draws, ids, size).None?
  {
  }

  /** Appending an id not yet listed keeps the list free of duplicates. */
  lemma DistinctAppend(ids: seq<string>, id: string)
    requires Distinct(ids) && id !in ids
    ensures Distinct(ids + [id])
  {
    var s := ids + [id];
    forall i, j | 0 <= i < j < |s| ensures s[i] != s[j] {
      if j == |ids| { assert s[i] == ids[i]; }
    }
  }

  class RandomIDGen {
    var n: nat
    const size: nat
    const max: nat
    var idlist: seq<string>
    /** The shelve entry under `Key`. */
    var store: Option<seq<string>>

    /** The lists held in memory and on file are free of duplicates. */
    predicate Valid()
      reads this
    {
      && max == Pow10(size)
      && Distinct(idlist)
      && (store.Some? ==> Distinct(store.value))
    }

    /** `RandomIDGen(filepath, size)`, the file holding `stored` under the key. */
    constructor (stored: Option<seq<string>>, size: nat := 4)
      ensures this.size == size && max == Pow10(size)
      ensures n == 0 && idlist == [] && store == stored
      ensures (stored.Some? ==> Distinct(stored.value)) ==> Valid()
    {
      n := 0;
      this.size := size;
      idlist := [];
      max := Pow10(size);
      store := stored;
    }

    /** `save()`: write the list to the file. */
    method Save()
      modifies this`store
      ensures store == Some(idlist)
    {
      store := Some(idlist);
    }

    /** `load(ignore_errors)`: read the list back; a missing key raises
        KeyError unless errors are ignored, and leaves the list alone. */
    method Load(ignoreErrors: bool) returns (o: Outcome)
      modifies this`idlist
      ensures old(store).Some? ==> o == Pass && idlist == old(store).value
      ensures old(store).None? ==> idlist == old(idlist) && o == (if ignoreErrors then Pass else Fail(KeyError(Key)))
    {
      if store.None? {
        if ignoreErrors {
          return Pass;
        }
        return Fail(KeyError(Key));
      }
      idlist := store.value;
      o := Pass;
    }

    /** `exists()`: whether the file holds a list. */
    function Exists(): (b: bool)
      reads this
      ensures b <==> store.Some?
    {
      store.Some?
    }

    /** `delete(ignore_errors)`: remove the list from the file; a missing key
        raises KeyError unless errors are ignored, which is the default. */
    method Delete(ignoreErrors: bool := true) returns (o: Outcome)
      modifies this`store
      ensures store.None?
      ensures o == (if old(store).None? && !ignoreErrors then Fail(KeyError(Key)) else Pass)
    {
      if store.None? && !ignoreErrors {
        return Fail(KeyError(Key));
      }
      store := None;
      o := Pass;
    }

    /** `__iter__`: save the list. */
    method Iter()
      modifies this`store
      ensures store == Some(idlist)
    {
      Save();
    }

    /** `__next__`: StopIteration once more than 10^size ids were issued;
        otherwise load the list (KeyError when the file has none) and draw
        until an id comes up that is not in it, which is appended, saved,
        counted and returned. */
    method Next(draws: seq<nat>) returns (r: Issue)
      requires Valid()
      requires forall k :: 0 <= k < |draws| ==> draws[k] <= max
      modifies this`idlist, this`store, this`n
      ensures Valid()
      ensures old(n) > max ==> r == Thrown(StopIteration) && unchanged(this)
      ensures old(n) <= max && old(store).None? ==> r == Thrown(KeyError(Key)) && unchanged(this)
      ensures old(n) <= max && old(store).Some? ==>
                var ids := old(store).value;
                match FirstFresh(draws, ids, size)
                case None => r == OutOfDraws && idlist == ids && store == old(store) && n == old(n)
                case Some(k) => r == Issued(IdText(draws[k], size)) && idlist == ids + [r.id]
                                && store == Some(idlist) && n == old(n) + 1
      ensures r.Issued? ==> r.id !in old(store).value && idlist == old(store).value + [r.id]
    {
      if n > max {
        return Thrown(StopIteration);
      }
      var loaded := Load(false);
      if loaded.Fail? {
        return Thrown(loaded.error);
      }
      var k := 0;
      while k < |draws|
        invariant k <= |draws|
        invariant idlist == old(store).value && store == old(store) && n == old(n)
        invariant forall j :: 0 <= j < k ==> IdText(draws[j], size) in idlist
      {
        var id := IdText(draws[k], size);
        if id !in idlist {
          FirstFreshAt(draws, idlist, size, k);
          DistinctAppend(idlist, id);
          idlist := idlist + [id];
          Save();
          n := n + 1;
          return Issued(id);
        }
        k := k + 1;
      }
      FirstFreshNone(draws, idlist, size);
      r := OutOfDraws;
    }

    /** `reset(answer)`: when the answer holds a "y", delete the stored
        list and save an empty one; otherwise nothing changes. The count of
        issued ids is kept either way. */
    method Reset(answer: string)
      requires Valid()
      modifies this`idlist, this`store
      ensures Valid()
      ensures 'y' in answer ==> idlist == [] && store == Some([])
      ensures 'y' !in answer ==> unchanged(this)
    {
      if 'y' in answer {
        var _ := Delete();
        idlist := [];
        Save();
      }
    }
  }
}
