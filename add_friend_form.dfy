/**
 * The add-friend form: two text fields and the submit rule that turns them
 * into a new friend record with a zero balance. The identifier comes from the
 * environment (a random UUID in the browser) and is passed in.
 */
module AddFriendForm {
  import opened Wrappers
  import opened Friends

  /** The avatar service address the image field starts with and returns to. */
  const DefaultImage: string := "https://i.pravatar.cc/48"

  /** The submit rule. Nothing is produced when either field is empty;
      otherwise the friend gets the fresh id, the typed name, a zero balance and
      the typed image address with "?=" and the id appended to it. */
  function NewFriend(name: string, image: string, id: string): (r: Option<Friend>)
    ensures r.None? <==> name == "" || image == ""
    ensures r.Some? ==> r.value.id == Uuid(id) && r.value.name == name && r.value.balance == 0
    ensures r.Some? ==> |r.value.image| == |image| + 2 + |id|
    ensures r.Some? ==> r.value.image[..|image|] == image
    ensures r.Some? ==> r.value.image[|image|..|image| + 2] == "?="
    ensures r.Some? ==> r.value.image[|image| + 2..] == id
  {
    if name == "" || image == "" then None
    else Some(Friend(Uuid(id), name, image + "?=" + id, 0))
  }

  /** Two friends added through the form with different ids are different
      records and never share an identifier. */
  lemma DistinctIdsGiveDistinctFriends(name: string, image: string, id1: string, id2: string)
    requires name != "" && image != "" && id1 != id2
    ensures NewFriend(name, image, id1).Some? && NewFriend(name, image, id2).Some?
    ensures NewFriend(name, image, id1).value.id != NewFriend(name, image, id2).value.id
    ensures NewFriend(name, image, id1).value.image != NewFriend(name, image, id2).value.image
  {
  }

  /** The form's own state: what is typed into its two fields. */
  class FormAddFriend {
    var name: string
    var image: string

    constructor ()
      ensures name == "" && image == DefaultImage
    {
      name := "";
      image := DefaultImage;
    }

    method ChangeName(text: string)
      modifies this
      ensures name == text && image == old(image)
    {
      name := text;
    }

    method ChangeImage(text: string)
      modifies this
      ensures image == text && name == old(name)
    {
      image := text;
    }

    /** Submitting emits the rule's friend; after a successful submit both fields
        are back at their defaults, after a refused one they are kept. */
    method Submit(id: string) returns (added: Option<Friend>)
      modifies this
      ensures added == NewFriend(old(name), old(image), id)
      ensures added.Some? ==> name == "" && image == DefaultImage
      ensures added.None? ==> name == old(name) && image == old(image)
    {
      added := NewFriend(name, image, id);
      if added.Some? {
        name := "";
        image := DefaultImage;
      }
    }
  }
}
