/** What the blog-creation forms decide on submit, shared by both
    `CreateBlogForm` components: the required-field predicate and the record
    sent to `collection('Blogs').create`. */
module BlogSubmission {
  import opened Common

  /** The form's state cells and the editor's `getHTML()`; `html` is `None`
      while `useEditor` has not produced an editor yet. */
  datatype FormFields = FormFields(title: string, description: string, imgUrl: string, html: Option<string>)

  const MissingFields := Toast(true, "Error", "Please fill in all required fields")
  const Published := Toast(false, "Success", "Blog post created successfully!")
  /** The `TypeError` raised by `user.id` when no user is signed in. */
  const NullUserMessage := "Cannot read properties of null (reading 'id')"

  function CreateError(message: string): Toast {
    Toast(true, "Error", ErrorText(message, "Failed to create blog post"))
  }

  /** `editor?.getHTML()` is truthy. */
  predicate HasContent(html: Option<string>) {
    html.Some? && html.value != ""
  }

  /** The guard `!title || !description || !editor?.getHTML()` negated. */
  predicate Accepts(f: FormFields) {
    f.title != "" && f.description != "" && HasContent(f.html)
  }

  /** `blogData`: exactly five fields, the editor HTML as content and the
      signed-in user's id as author. */
  function BlogRecord(f: FormFields, author: UserRecord): (r: map<string, string>)
    requires HasContent(f.html)
    ensures r.Keys == {"title", "description", "img", "content", "author"}
    ensures r["title"] == f.title && r["description"] == f.description && r["img"] == f.imgUrl
    ensures r["content"] == f.html.value && r["author"] == author.id
  {
    map["title" := f.title, "description" := f.description, "img" := f.imgUrl,
        "content" := f.html.value, "author" := author.id]
  }

  /** A submit is rejected exactly when the title, the description or the
      editor HTML is empty or absent. */
  lemma RejectsExactlyMissingFields(f: FormFields)
    ensures !Accepts(f) <==> f.title == "" || f.description == "" || f.html == None || f.html == Some("")
  {
  }

  /** The image URL never takes part in the decision: an empty one is
      accepted like any other. */
  lemma ImageUrlIsOptional(f: FormFields, imgUrl: string)
    ensures Accepts(f) == Accepts(f.(imgUrl := imgUrl))
    ensures Accepts(f) ==> Accepts(f.(imgUrl := ""))
  {
  }

  /** The record carries everything the author typed: two accepted forms
      with the same author give the same record only if they agree on every
      field. */
  lemma BlogRecordIsFaithful(f: FormFields, g: FormFields, author: UserRecord)
    requires Accepts(f) && Accepts(g)
    requires BlogRecord(f, author) == BlogRecord(g, author)
    ensures f == g
  {
    assert f.title == BlogRecord(f, author)["title"];
    assert f.html.value == BlogRecord(f, author)["content"];
    assert g.html.value == BlogRecord(g, author)["content"];
  }

  /** What the first, synchronous part of `handleSubmit` did. */
  datatype SubmitOutcome =
    | Rejected                              // guard failed, nothing else happened
    | Aborted                               // `user.id` threw before the create call
    | Sent(record: map<string, string>)     // the create call is awaiting its answer
}
