/**
 * The provider's own profile (backend/controllers/profileController.js):
 * reading it through a projection that leaves out credentials and
 * verification documents, and updating thirteen fields with the truthy merge.
 */
module ProfileController {
  import opened Js
  import opened ProviderStore

  /** The fields `updateProfile` accepts, in the order it assigns them; `email` is not one. */
  const ProfileFields: seq<string> := [
    "firstName", "lastName", "phone", "bio", "services", "serviceAreas", "experience",
    "profilePhoto", "address", "city", "zip", "country", "dob"]

  /** The fields both handlers report. */
  const ViewFields: set<string> := {
    "firstName", "lastName", "email", "phone", "bio", "services", "serviceAreas",
    "experience", "profilePhoto", "address", "city", "zip", "country", "dob"}

  /** The profile as both handlers return it: fourteen fields, no password. */
  datatype ProfileView = ProfileView(
    firstName: Value, lastName: Value, email: Value, phone: Value, bio: Value,
    services: Value, serviceAreas: Value, experience: Value, profilePhoto: Value,
    address: Value, city: Value, zip: Value, country: Value, dob: Value)

  datatype ProfileReply =
    | NotFound                   // 404 'Provider not found'
    | Profile(view: ProfileView) // 200

  /** The field of a view named `k`, `undefined` for any other name. */
  function FieldNamed(v: ProfileView, k: string): Value {
    if k == "firstName" then v.firstName else if k == "lastName" then v.lastName
    else if k == "email" then v.email else if k == "phone" then v.phone
    else if k == "bio" then v.bio else if k == "services" then v.services
    else if k == "serviceAreas" then v.serviceAreas else if k == "experience" then v.experience
    else if k == "profilePhoto" then v.profilePhoto else if k == "address" then v.address
    else if k == "city" then v.city else if k == "zip" then v.zip
    else if k == "country" then v.country else if k == "dob" then v.dob
    else Undefined
  }

  /**
   * The object literal both handlers answer with: each of the fourteen
   * fields is the stored value under the same name, and a field the document
   * lacks is `undefined` (left out of the JSON).
   */
  function View(doc: Doc): (r: ProfileView)
    ensures forall k :: k in ViewFields ==> FieldNamed(r, k) == Get(doc, k)
    ensures forall k :: k in ViewFields && k !in doc ==> FieldNamed(r, k) == Undefined
  {
    ProfileView(
      Get(doc, "firstName"), Get(doc, "lastName"), Get(doc, "email"), Get(doc, "phone"),
      Get(doc, "bio"), Get(doc, "services"), Get(doc, "serviceAreas"), Get(doc, "experience"),
      Get(doc, "profilePhoto"), Get(doc, "address"), Get(doc, "city"), Get(doc, "zip"),
      Get(doc, "country"), Get(doc, "dob"))
  }

  /** The view reads the fourteen listed fields and nothing else. */
  lemma ViewReadsOnlyViewFields(a: Doc, b: Doc)
    requires forall k :: k in ViewFields ==> Get(a, k) == Get(b, k)
    ensures View(a) == View(b)
  {
    assert "firstName" in ViewFields && "lastName" in ViewFields && "email" in ViewFields;
    assert "phone" in ViewFields && "bio" in ViewFields && "services" in ViewFields;
    assert "serviceAreas" in ViewFields && "experience" in ViewFields && "profilePhoto" in ViewFields;
    assert "address" in ViewFields && "city" in ViewFields && "zip" in ViewFields;
    assert "country" in ViewFields && "dob" in ViewFields;
  }

  /** No reported field is one the projection hides. */
  lemma ViewFieldsNotHidden()
    ensures ViewFields !! HiddenFields
  {
  }

  /** Deselecting the hidden fields loses nothing the view reports. */
  lemma ViewOfSelected(doc: Doc)
    ensures View(Select(doc)) == View(doc)
  {
    ViewFieldsNotHidden();
    ViewReadsOnlyViewFields(Select(doc), doc);
  }

  /** Neither the password nor a verification document can reach a reply. */
  lemma ViewNeverShowsHidden(doc: Doc, k: string, x: Value)
    requires k in HiddenFields
    ensures View(doc[k := x]) == View(doc)
  {
    assert k !in ViewFields;
    ViewReadsOnlyViewFields(doc[k := x], doc);
  }

  /** `updateProfile` never changes the e-mail, whatever the request carries. */
  lemma UpdateKeepsEmail(doc: Doc, body: Doc)
    ensures Get(MergeTruthy(doc, body, ProfileFields), "email") == Get(doc, "email")
  {
    assert "email" !in ProfileFields;
  }

  /** `getProfile`: a missing provider is a 404; otherwise the projection of the selected document. */
  method GetProfile(store: ProviderCollection, id: string) returns (reply: ProfileReply)
    ensures id !in store.docs <==> reply == NotFound
    ensures id in store.docs ==> reply == Profile(View(store.docs[id]))
  {
    if id !in store.docs {
      return NotFound;
    }
    var provider := Select(store.docs[id]);
    ViewOfSelected(store.docs[id]);
    reply := Profile(View(provider));
  }

  /**
   * `updateProfile`: a missing provider is a 404 and nothing changes; otherwise
   * each of the thirteen fields takes the request's value when that is truthy,
   * the document is saved and the new projection returned.
   */
  method UpdateProfile(store: ProviderCollection, id: string, body: Doc) returns (reply: ProfileReply)
    modifies store
    ensures id !in old(store.docs) ==> reply == NotFound && store.docs == old(store.docs)
    ensures id in old(store.docs) ==>
      && store.docs == old(store.docs)[id := MergeTruthy(old(store.docs)[id], body, ProfileFields)]
      && reply == Profile(View(store.docs[id]))
    ensures id in old(store.docs) ==> Get(store.docs[id], "email") == Get(old(store.docs)[id], "email")
  {
    if id !in store.docs {
      return NotFound;
    }
    var provider := store.docs[id];
    provider := MergeTruthy(provider, body, ProfileFields);
    store.docs := store.docs[id := provider];
    UpdateKeepsEmail(old(store.docs)[id], body);
    reply := Profile(View(provider));
  }
}
