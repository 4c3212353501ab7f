/**
  The add-contact dialog: a form whose fields (name, phone, the tag list
  and the tag being typed) are updated step by step by its handlers, and
  whose submit hands a contact to the page and resets the form.
 */
module AddContactDialog {
  import opened Seqs
  import opened Text
  import opened Page

  /** The tag list the dialog keeps: every tag trimmed and non-empty, no tag twice. */
  predicate TagsWellFormed(tags: seq<string>)
  {
    && (forall i :: 0 <= i < |tags| ==> tags[i] != [] && Trim(tags[i]) == tags[i])
    && Distinct(tags)
  }

  /** The `addTag` guard: the trimmed input is not empty and not a tag yet. */
  predicate AcceptsTag(tags: seq<string>, newTag: string)
  {
    !IsBlank(newTag) && Trim(newTag) !in tags
  }

  /** The tag list after `addTag`. */
  function WithTag(tags: seq<string>, newTag: string): seq<string>
  {
    if AcceptsTag(tags, newTag) then tags + [Trim(newTag)] else tags
  }

  /** `addTag` keeps the tag list well formed. */
  lemma WithTagKeepsTagsWellFormed(tags: seq<string>, newTag: string)
    requires TagsWellFormed(tags)
    ensures TagsWellFormed(WithTag(tags, newTag))
  {
    if AcceptsTag(tags, newTag) {
      var t := Trim(newTag);
      TrimIdempotent(newTag);
      DistinctAppend(tags, t);
      var r := tags + [t];
      forall i | 0 <= i < |r|
        ensures r[i] != [] && Trim(r[i]) == r[i]
      {
        if i < |tags| {
          assert r[i] == tags[i];
        }
      }
    }
  }

  /** Adding the same input twice adds it once: the second attempt is a duplicate. */
  lemma WithTagIdempotent(tags: seq<string>, newTag: string)
    ensures WithTag(WithTag(tags, newTag), newTag) == WithTag(tags, newTag)
  {
  }

  /** `removeTag` keeps the tag list well formed. */
  lemma WithoutTagKeepsTagsWellFormed(tags: seq<string>, tag: string)
    requires TagsWellFormed(tags)
    ensures TagsWellFormed(Without(tags, tag))
  {
    FilterDistinct(Keeps(tag), tags);
    var r := Without(tags, tag);
    forall i | 0 <= i < |r|
      ensures r[i] != [] && Trim(r[i]) == r[i]
    {
      assert r[i] in tags;
    }
  }

  class ContactForm {
    var name: string
    var phone: string
    var tags: seq<string>
    var newTag: string
    var open: bool

    ghost predicate Valid()
      reads this
    {
      TagsWellFormed(tags)
    }

    constructor (open: bool)
      ensures Valid()
      ensures name == "" && phone == "" && tags == [] && newTag == "" && this.open == open
    {
      name, phone, tags, newTag := "", "", [], "";
      this.open := open;
    }

    /** `addTag`: a rejected input leaves tags and input alone; an accepted one is appended trimmed and the input cleared. */
    method AddTag() returns (added: bool)
      requires Valid()
      modifies this`tags, this`newTag
      ensures Valid()
      ensures added == AcceptsTag(old(tags), old(newTag))
      ensures tags == WithTag(old(tags), old(newTag))
      ensures newTag == if added then "" else old(newTag)
    {
      WithTagKeepsTagsWellFormed(tags, newTag);
      added := !IsBlank(newTag) && Trim(newTag) !in tags;
      if added {
        tags := tags + [Trim(newTag)];
        newTag := "";
      }
    }

    /** `removeTag`: that tag goes, the others keep their order. */
    method RemoveTag(tag: string)
      requires Valid()
      modifies this`tags
      ensures Valid()
      ensures tags == Without(old(tags), tag)
      ensures tag !in tags && IsSubsequence(tags, old(tags))
    {
      WithoutTagKeepsTagsWellFormed(tags, tag);
      tags := Without(tags, tag);
    }

    /** `handleKeyPress`: Enter in the tag input is `addTag`; other keys do nothing here. */
    method KeyPress(key: string) returns (added: bool)
      requires Valid()
      modifies this`tags, this`newTag
      ensures Valid()
      ensures key == "Enter" ==> added == AcceptsTag(old(tags), old(newTag)) && tags == WithTag(old(tags), old(newTag))
                                 && newTag == (if added then "" else old(newTag))
      ensures key != "Enter" ==> !added && tags == old(tags) && newTag == old(newTag)
    {
      added := false;
      if key == "Enter" {
        added := AddTag();
      }
    }

    /**
      `handleSubmit`: with a blank name or phone nothing happens; otherwise the
      trimmed name and phone and the tags are handed over, the fields are
      reset and the dialog closes.
     */
    method Submit() returns (submitted: Option<ContactDraft>)
      requires Valid()
      modifies this
      ensures Valid()
      ensures IsBlank(old(name)) || IsBlank(old(phone)) ==>
                submitted == None && name == old(name) && phone == old(phone) && tags == old(tags)
                && newTag == old(newTag) && open == old(open)
      ensures !IsBlank(old(name)) && !IsBlank(old(phone)) ==>
                submitted == Some(ContactDraft(Trim(old(name)), Trim(old(phone)), old(tags)))
                && name == "" && phone == "" && tags == [] && newTag == "" && !open
      ensures submitted.Some? ==>
                !IsBlank(submitted.value.name) && !IsBlank(submitted.value.phone) && TagsWellFormed(submitted.value.tags)
    {
      if IsBlank(name) || IsBlank(phone) {
        return None;
      }
      var trimmedName, trimmedPhone := Trim(name), Trim(phone);
      TrimIdempotent(name);
      TrimIdempotent(phone);
      assert !IsBlank(trimmedName) && !IsBlank(trimmedPhone);
      submitted := Some(ContactDraft(trimmedName, trimmedPhone, tags));
      name, phone, tags, newTag := "", "", [], "";
      open := false;
    }
  }
}
