/** The GUI's profile record (`scan2mesh_gui.models.profile`), which groups
    scan objects. */
module Profiles {
  import opened Common
  import opened Names

  const MaxTags := 20
  const MaxTagLength := 50

  datatype Profile = Profile(
    id: string,
    name: string,
    description: Option<string>,
    tags: seq<string>,
    createdAt: string,
    updatedAt: string)
  {
    predicate Valid()
    {
      1 <= |name| <= 100 && !HasPathTraversal(name)
      && |tags| <= MaxTags && forall i :: 0 <= i < |tags| ==> |tags[i]| <= MaxTagLength
    }
  }

  /** The tag validator: at most 20 tags, each at most 50 characters; the
      error message is the first check that fails. */
  function ValidateTags(tags: seq<string>): (r: Result<seq<string>>)
    ensures r.Ok? <==> |tags| <= MaxTags && forall i :: 0 <= i < |tags| ==> |tags[i]| <= MaxTagLength
    ensures r.Ok? ==> r.value == tags
    ensures |tags| > MaxTags ==> r == Err("Maximum 20 tags allowed")
    ensures |tags| <= MaxTags && r.Err? ==> r.error == "Tag too long (max 50 characters)"
  {
    if |tags| > MaxTags then Err("Maximum 20 tags allowed")
    else if exists i :: 0 <= i < |tags| && |tags[i]| > MaxTagLength then Err("Tag too long (max 50 characters)")
    else Ok(tags)
  }

  /** `Profile(name=..., ...)`; `id` and `now` stand for the uuid and the
      clock the defaults draw, and an omitted description is `None`. */
  function NewProfile(id: string, name: string, description: Option<string>, tags: seq<string>, now: string)
    : (r: Validation<Profile>)
    ensures r.Accepted? <==> 1 <= |name| <= 100 && !HasPathTraversal(name) && ValidateTags(tags).Ok?
    ensures r.Accepted? ==> r.value.Valid() && r.value.name == name && r.value.tags == tags
                            && r.value.description == description
                            && r.value.createdAt == now && r.value.updatedAt == now
  {
    var nameOk := 1 <= |name| <= 100 && !HasPathTraversal(name);
    if nameOk && ValidateTags(tags).Ok? then Accepted(Profile(id, name, description, tags, now, now))
    else Rejected(Failing([("name", nameOk), ("tags", ValidateTags(tags).Ok?)]))
  }

  /** Unlike object names, profile names are free text: spaces are fine,
      and empty tags are not rejected. */
  lemma ProfileNamesAreFreeText()
    ensures NewProfile("p", "My box", None, ["", "robocup"], "t").Accepted?
  {
    var name := "My box";
    assert forall i :: 0 <= i < |name| ==> name[i] != '.';
    NoDotNoDoubleDot(name);
    assert !HasPathTraversal(name);
    assert ValidateTags(["", "robocup"]).Ok?;
  }

  /** Path traversal in a profile name is refused. */
  lemma ProfileNamesRefuseTraversal()
    ensures NewProfile("p", "a/b", None, [], "t").Rejected?
    ensures NewProfile("p", "a..b", None, [], "t").Rejected?
  {
    assert '/' in "a/b";
    ContainsAt("a..b", "..", 1);
  }
}
