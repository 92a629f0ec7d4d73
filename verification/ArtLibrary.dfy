/** A snapshot of an art directory's filenames and what it answers of an id
    (internal/artlib/artlib.go, Open to Lookup), before any file is read. */
module ArtLibrary {
  import opened Contract
  import opened TextOrder
  import opened ArtInstall

  /** What the names alone say of an id. */
  datatype Answer = NotAnId | NotInstalled | CaseOnly(onDisk: Text) | Installed

  /** An entry that is this name in another case; `lower` is the folding of case. */
  predicate Miscased(lower: Text -> Text, e: Text, name: Text) { lower(e) == name && e != name }

  /** The entry reported of a name: the first, in order, that is it in another case. */
  predicate FirstMiscased(lower: Text -> Text, entries: seq<Text>, name: Text, e: Text) {
    e in entries && Miscased(lower, e, name) && forall o :: o in entries && Miscased(lower, o, name) ==> Leq(e, o)
  }

  predicate NoneMiscased(lower: Text -> Text, entries: seq<Text>, name: Text) {
    forall o :: o in entries ==> !Miscased(lower, o, name)
  }

  class Library {
    const lower: Text -> Text
    var names: set<Text>
    var folded: map<Text, Text>

    /** The entries as the directory lists them, sorted. */
    constructor (entries: seq<Text>, lower: Text -> Text)
      requires Ascending(entries)
      ensures this.lower == lower && Says(entries)
    {
      this.lower := lower;
      names, folded := {}, map[];
      new;
      for k := 0 to |entries|
        invariant names == set e | e in entries[..k]
        invariant forall n :: n in folded ==> FirstFolded(entries[..k], n, folded[n])
        invariant forall e :: e in entries[..k] && lower(e) != e ==> lower(e) in folded
      {
        var e := entries[k];
        assert entries[..k + 1] == entries[..k] + [e];
        forall o | o in entries[..k] ensures Leq(o, e) {
          var j :| 0 <= j < k && entries[j] == o;
        }
        Total(e, e);
        names := names + {e};
        var n := lower(e);
        if n != e && n !in folded {
          folded := folded[n := e];
        }
      }
      assert entries[..|entries|] == entries;
    }

    /** The first entry folding to n that is not already n. */
    ghost predicate FirstFolded(entries: seq<Text>, n: Text, e: Text) {
      e in entries && lower(e) == n != e && forall o :: o in entries && lower(o) == n != o ==> Leq(e, o)
    }

    /** It is the snapshot of these entries. */
    ghost predicate Says(entries: seq<Text>)
      reads this
    {
      && names == (set e | e in entries)
      && (forall n :: n in folded ==> FirstFolded(entries, n, folded[n]))
      && (forall e :: e in entries && lower(e) != e ==> lower(e) in folded)
    }

    /** caseOnlyMatch of a name already lower case, as every art name is. */
    method CaseOnlyMatch(name: Text, ghost entries: seq<Text>) returns (r: Option<Text>)
      requires Says(entries) && lower(name) == name
      ensures r.Some? ==> FirstMiscased(lower, entries, name, r.value)
      ensures r.None? ==> NoneMiscased(lower, entries, name)
    {
      var n := lower(name);
      if n in folded && folded[n] != name {
        r := Some(folded[n]);
      } else {
        r := None;
      }
    }

    /** Lookup as far as the names decide it: an id is installed exactly when an entry
        carries its name as it is spelt, whatever the volume would match. */
    method Resolve(id: Text, ghost entries: seq<Text>) returns (a: Answer)
      requires Says(entries)
      requires IsArtId(id) ==> lower(id + PICTURE) == id + PICTURE && lower(id + SIDECAR) == id + SIDECAR
      ensures a.NotAnId? <==> !IsArtId(id)
      ensures a.Installed? <==> IsArtId(id) && (id + PICTURE in entries || id + SIDECAR in entries)
      ensures a.CaseOnly? ==> FirstMiscased(lower, entries, id + PICTURE, a.onDisk)
                              || (NoneMiscased(lower, entries, id + PICTURE) && FirstMiscased(lower, entries, id + SIDECAR, a.onDisk))
      ensures a.NotInstalled? ==> NoneMiscased(lower, entries, id + PICTURE) && NoneMiscased(lower, entries, id + SIDECAR)
    {
      var named := CheckArtId(id);
      if !named { return NotAnId; }
      if id + SIDECAR in names || id + PICTURE in names { return Answer.Installed; }
      var picture := CaseOnlyMatch(id + PICTURE, entries);
      if picture.Some? { return CaseOnly(picture.value); }
      var sidecar := CaseOnlyMatch(id + SIDECAR, entries);
      if sidecar.Some? { return CaseOnly(sidecar.value); }
      a := NotInstalled;
    }
  }
}
