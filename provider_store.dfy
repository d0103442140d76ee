/**
 * The provider collection as the provider controllers see it: schema-less
 * documents keyed by id, and the "truthy replaces, falsy keeps" field merge
 * (`provider.f = body.f || provider.f`) that the update handlers apply, and
 * the `select` both read handlers apply to a loaded document.
 */
module ProviderStore {
  import opened Js

  class ProviderCollection {
    var docs: map<string, Doc>

    constructor ()
      ensures docs == map[]
    {
      docs := map[];
    }
  }

  /** What `.select('-password -__v ...')` excludes from the loaded document. */
  const HiddenFields: set<string> := {
    "password", "__v", "createdAt", "passwordChangedAt", "idPhoto", "selfiePhoto",
    "backgroundCheck", "status"}

  /** The loaded document once the hidden fields are deselected. */
  function Select(doc: Doc): (r: Doc)
    ensures forall k :: k in HiddenFields ==> k !in r
    ensures forall k :: k !in HiddenFields ==> Get(r, k) == Get(doc, k)
  {
    map k | k in doc && k !in HiddenFields :: doc[k]
  }

  /**
   * `provider.f = body.f || provider.f` for each `f` of `fields` in turn: a
   * listed field takes the request's value when that is truthy and keeps its
   * stored value otherwise; every other field is untouched.
   */
  function MergeTruthy(doc: Doc, body: Doc, fields: seq<string>): (r: Doc)
    ensures forall k {:trigger Get(r, k)} ::
      Get(r, k) == if k in fields && Truthy(Get(body, k)) then Get(body, k) else Get(doc, k)
  {
    if fields == [] then doc
    else
      var before := MergeTruthy(doc, body, fields[..|fields| - 1]);
      var f := fields[|fields| - 1];
      var r := before[f := Or(Get(body, f), Get(before, f))];
      assert forall k :: k in fields <==> k in fields[..|fields| - 1] || k == f;
      assert forall k :: k != f ==> Get(r, k) == Get(before, k);
      r
  }
}
