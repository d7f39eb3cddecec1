/** The image-list editor of `src/app/dashboard/landlord/add-property/page.tsx`
    and the page's landlord-only guard. */
module AddProperty {
  import opened Domain

  const LandlordsOnly := "Only landlords can add properties."

  /** A new, empty image row: `{ url: "", alt: "" }`. */
  const Blank := ImageInput("", Some(""))

  /** What the page shows: the refusal text or the form. */
  datatype View = Refusal(message: string) | Form

  /** Anyone but a signed-in landlord sees only the refusal. */
  function Render(session: Session): (v: View)
    ensures v.Form? <==> session.Some? && session.value.role == Role.Landlord
    ensures v.Refusal? ==> v.message == LandlordsOnly
  {
    if session.None? || session.value.role != Role.Landlord then Refusal(LandlordsOnly) else Form
  }

  /** `images.filter((_, i) => i !== index)`. */
  function RemoveAt(images: seq<ImageInput>, index: int): (r: seq<ImageInput>)
    ensures 0 <= index < |images| ==> r == images[..index] + images[index + 1..]
    ensures !(0 <= index < |images|) ==> r == images
    decreases |images|
  {
    if images == [] then []
    else
      var rest := RemoveAt(images[1..], index - 1);
      if index == 0 then rest
      else
        assert 0 < index < |images| ==> images[1..][..index - 1] == images[1..index];
        [images[0]] + rest
  }

  /** The text field an edit addresses. */
  datatype Field = Url | Alt

  /** One image with one field replaced. */
  function SetField(img: ImageInput, field: Field, value: string): (r: ImageInput)
    ensures field == Url ==> r.url == value && r.alt == img.alt
    ensures field == Alt ==> r.alt == Some(value) && r.url == img.url
  {
    match field
    case Url => img.(url := value)
    case Alt => img.(alt := Some(value))
  }

  /** The remove button is shown only when more than one image is listed. */
  predicate RemoveOffered(images: seq<ImageInput>)
  {
    |images| > 1
  }

  /** The form's image list. */
  class ImageList {
    var images: seq<ImageInput>

    constructor()
      ensures images == [Blank]
    {
      images := [Blank];
    }

    /** `handleAddImage`: one blank row at the end. */
    method AddImage()
      modifies this
      ensures images == old(images) + [Blank]
    {
      images := images + [Blank];
    }

    /** `handleRemoveImage`: the row at `index` goes, the rest keep their
        order; an index out of range changes nothing. */
    method RemoveImage(index: int)
      modifies this
      ensures images == RemoveAt(old(images), index)
      ensures 0 <= index < |old(images)| ==> |images| == |old(images)| - 1
    {
      images := RemoveAt(images, index);
    }

    /** `handleImageChange`: the list is copied into a fresh buffer, one
        field of one row is written in place, and the buffer becomes the
        new list. Only that field of that row changes. */
    method ImageChange(index: int, field: Field, value: string)
      requires 0 <= index < |images|
      modifies this
      ensures |images| == |old(images)|
      ensures images[index] == SetField(old(images)[index], field, value)
      ensures forall i :: 0 <= i < |images| && i != index ==> images[i] == old(images)[i]
    {
      var newImages := new ImageInput[|images|](i requires 0 <= i < |images| reads this => images[i]);
      newImages[index] := SetField(newImages[index], field, value);
      images := newImages[..];
    }
  }

  /** Using only the buttons the page shows, the list never becomes empty:
      removing is offered only with two or more rows. */
  lemma OfferedRemoveKeepsOne(images: seq<ImageInput>, index: int)
    requires RemoveOffered(images)
    ensures |RemoveAt(images, index)| >= 1
  {
  }

  /** Adding a row and then removing it restores the list. */
  lemma RemoveUndoesAdd(images: seq<ImageInput>)
    ensures RemoveAt(images + [Blank], |images|) == images
  {
    assert (images + [Blank])[..|images|] == images;
  }
}
