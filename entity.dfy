/** The generic storage entity and its composite identifier
    `"<collection>::<normalised natural id>"`. */
module Entities {
  import opened Base
  import opened Text

  const IdMissing: Error := ValueError("identifier must be defined.")

  /** True when `suffix` is a normalised natural id: non-empty, no whitespace,
      no upper-case letter. */
  predicate Normalised(suffix: string) {
    suffix != "" && WhitespaceFree(suffix) && LowerCase(suffix)
  }

  /** What `create_id` computes for an entity of `collectionName`: the id
      with whitespace taken out by `"".join(id.split())`, lower-cased and
      prefixed; a missing, empty or whitespace-only id raises `ValueError`. */
  function DeriveId(collectionName: string, x: Option<string>): (r: Result<string>)
    ensures r.Failure? <==> IsBlank(x)
    ensures r.Failure? ==> r.error == IdMissing
    ensures r.Success? ==> r.value == collectionName + "::" + ToLower(RemoveWhitespace(x.value))
  {
    if IsBlank(x) then Failure(IdMissing)
    else
      JoinSplit(x.value);
      Success(collectionName + "::" + ToLower(Join(Split(x.value))))
  }

  /** A derived id is the collection prefix followed by a normalised suffix. */
  lemma DeriveIdShape(collectionName: string, x: string)
    requires !IsBlank(Some(x))
    ensures var r := DeriveId(collectionName, Some(x));
      r.Success? && |r.value| > |collectionName| + 2 &&
      r.value[..|collectionName| + 2] == collectionName + "::" &&
      Normalised(r.value[|collectionName| + 2..])
  {
    NotBlankKeepsSomething(x);
    var suffix := ToLower(RemoveWhitespace(x));
    var r := DeriveId(collectionName, Some(x));
    assert r.value == (collectionName + "::") + suffix;
    assert r.value[|collectionName| + 2..] == suffix;
  }

  /** Normalisation is idempotent: deriving again from the suffix of a
      derived id gives the same id. */
  lemma DeriveIdIdempotent(collectionName: string, x: string)
    requires !IsBlank(Some(x))
    ensures var r := DeriveId(collectionName, Some(x));
      r.Success? && DeriveId(collectionName, Some(r.value[|collectionName| + 2..])) == r
  {
    DeriveIdShape(collectionName, x);
    var suffix := DeriveId(collectionName, Some(x)).value[|collectionName| + 2..];
    assert suffix == ToLower(RemoveWhitespace(x));
    RemoveWhitespaceOfFree(suffix);
    ToLowerOfLower(suffix);
  }

  /** Whitespace anywhere in the natural id does not change the derived id
      (nor whether one is derived at all). */
  lemma DeriveIdIgnoresWhitespace(collectionName: string, a: string, w: string, b: string)
    requires forall i :: 0 <= i < |w| ==> IsWhitespace(w[i])
    ensures DeriveId(collectionName, Some(a + w + b)) == DeriveId(collectionName, Some(a + b))
  {
    RemoveWhitespaceAppend(a + w, b);
    RemoveWhitespaceAppend(a, w);
    RemoveWhitespaceAppend(a, b);
    RemoveWhitespaceOfSpaces(w);
    assert RemoveWhitespace(a + w + b) == RemoveWhitespace(a + b);
    if !IsBlank(Some(a + b)) {
      NotBlankKeepsSomething(a + b);
    }
    if !IsBlank(Some(a + w + b)) {
      NotBlankKeepsSomething(a + w + b);
    }
    BlankIffNothingLeft(a + b);
    BlankIffNothingLeft(a + w + b);
  }

  /** A string is blank exactly when nothing is left once whitespace is
      taken out. */
  lemma BlankIffNothingLeft(s: string)
    ensures IsBlank(Some(s)) <==> RemoveWhitespace(s) == ""
  {
    if IsBlank(Some(s)) {
      RemoveWhitespaceOfSpaces(s);
    } else {
      NotBlankKeepsSomething(s);
    }
  }

  /** Natural ids that differ only in letter case give the same derived id. */
  lemma DeriveIdIgnoresCase(collectionName: string, a: string, b: string)
    requires ToLower(a) == ToLower(b)
    ensures DeriveId(collectionName, Some(a)) == DeriveId(collectionName, Some(b))
  {
    BlankUpToCase(a, b);
    RemoveWhitespaceToLower(a);
    RemoveWhitespaceToLower(b);
    assert ToLower(RemoveWhitespace(a)) == ToLower(RemoveWhitespace(b));
  }

  /** A stored entity. The `_rid`, `_etag` and `_attachments` attributes are
      initialised with a trailing comma in the source, so each holds the
      one-element tuple `("",)`, modelled as a one-element sequence. */
  class Entity {
    var id: string
    var rid: seq<string>
    var selfLink: string
    var etag: seq<string>
    var attachments: seq<string>
    var ts: int
    var collectionName: string

    /** A fresh entity of `collectionName`, with no id yet. */
    constructor (collectionName: string)
      ensures id == "" && ts == 0 && this.collectionName == collectionName
      ensures rid == [""] && selfLink == "" && etag == [""] && attachments == [""]
    {
      id := "";
      rid := [""];
      selfLink := "";
      etag := [""];
      attachments := [""];
      ts := 0;
      this.collectionName := collectionName;
    }

    /** `create_id`: derives the id, stores it in `id` and returns it; a
        blank natural id raises `ValueError` and leaves `id` as it was. */
    method CreateId(x: Option<string>) returns (r: Result<string>)
      modifies this`id
      ensures r == DeriveId(collectionName, x)
      ensures r.Success? ==> id == r.value
      ensures r.Failure? ==> id == old(id)
    {
      if x.None? || x.value == "" || IsSpace(x.value) {
        return Failure(IdMissing);
      }
      id := Join(Split(x.value));
      id := collectionName + "::" + ToLower(id);
      return Success(id);
    }
  }
}
