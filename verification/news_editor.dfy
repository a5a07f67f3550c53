/** The add-news form that the publisher studio and the admin panel share: a draft
    edited field by field, a title-and-image check, and a reset after a successful post. */
module NewsEditor {
  import opened Common
  import opened NewsModel

  datatype DraftField = Title | Description | ImageUrl | Category

  datatype NewsDraft = NewsDraft(title: string, description: string, imageUrl: string, category: string)

  /** The draft a form starts from and returns to after a successful post. */
  const EmptyDraft: NewsDraft := NewsDraft("", "", "", DefaultCategory)

  function FieldOf(d: NewsDraft, f: DraftField): string
  {
    match f
    case Title => d.title
    case Description => d.description
    case ImageUrl => d.imageUrl
    case Category => d.category
  }

  /** `{ ...formData, [name]: value }`. */
  function WithField(d: NewsDraft, f: DraftField, value: string): (r: NewsDraft)
    ensures FieldOf(r, f) == value
    ensures forall g :: g != f ==> FieldOf(r, g) == FieldOf(d, g)
  {
    match f
    case Title => d.(title := value)
    case Description => d.(description := value)
    case ImageUrl => d.(imageUrl := value)
    case Category => d.(category := value)
  }

  /** The client-side check: title and image only; the description is not looked at. */
  predicate ReadyToSend(d: NewsDraft)
  {
    d.title != "" && d.imageUrl != ""
  }

  /** The JSON body of `api.post("/news", formData)`. */
  function DraftBody(d: NewsDraft): NewsFields
  {
    NewsFields(Some(d.title), Some(d.description), None, Some(d.imageUrl), Some(d.category), None, None)
  }

  /** A draft that passes the client check is stored by the server exactly when its
      description is non-empty; the stored article keeps the draft's fields, its category,
      and the default source. */
  lemma SentDraftAcceptedIff(d: NewsDraft, id: ObjectId, now: Timestamp)
    requires ReadyToSend(d)
    ensures NewArticle(DraftBody(d), id, now).Built? <==> d.description != ""
    ensures var r := NewArticle(DraftBody(d), id, now);
            r.Built? ==> && r.doc.title == d.title && r.doc.description == d.description
                         && r.doc.imageUrl == d.imageUrl && r.doc.category == d.category
                         && r.doc.source == DefaultSource && r.doc.content.None?
  {
  }

  /** `handleDelete(id)`: the id to delete, only when the confirmation was accepted. */
  function DeleteRequest(confirmed: bool, id: ObjectId): (r: Option<ObjectId>)
    ensures r.Some? <==> confirmed
    ensures r.Some? ==> r.value == id
  {
    if !confirmed then None else Some(id)
  }

  class AddNewsForm {
    var draft: NewsDraft
    var showForm: bool

    constructor ()
      ensures draft == EmptyDraft && !showForm
    {
      draft, showForm := EmptyDraft, false;
    }

    method Open()
      modifies this
      ensures showForm && draft == old(draft)
    {
      showForm := true;
    }

    method Close()
      modifies this
      ensures !showForm && draft == old(draft)
    {
      showForm := false;
    }

    /** `handleChange`: only the named field changes. */
    method HandleChange(f: DraftField, value: string)
      modifies this
      ensures draft == WithField(old(draft), f, value)
      ensures showForm == old(showForm)
    {
      draft := WithField(draft, f, value);
    }

    /** `handleSubmit`: returns the draft posted, if any, given the server's answer to that
        post. Without a title or an image nothing is posted and nothing changes; a
        successful post hides and resets the form; a failed one changes nothing. */
    method HandleSubmit(reply: ApiReply<Article>) returns (sent: Option<NewsDraft>)
      modifies this
      ensures !ReadyToSend(old(draft)) ==> sent.None? && draft == old(draft) && showForm == old(showForm)
      ensures ReadyToSend(old(draft)) ==> sent == Some(old(draft))
      ensures ReadyToSend(old(draft)) && reply.Ok? ==> !showForm && draft == EmptyDraft
      ensures ReadyToSend(old(draft)) && reply.Err? ==> draft == old(draft) && showForm == old(showForm)
    {
      if draft.title == "" || draft.imageUrl == "" {
        return None;
      }
      sent := Some(draft);
      if reply.Ok? {
        showForm := false;
        draft := EmptyDraft;
      }
    }
  }
}
