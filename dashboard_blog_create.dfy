/** `CreateBlogForm` of the dashboard's create-blog page, which hands its editor to
    `RichTextEditor`: its `handleSubmit` split at the
    `await` into `Submit` (the guard, `setLoading(true)`, the create call) and
    `Settle` (the answer, the `finally`). */
module DashboardBlogCreate {
  import opened Common
  import opened PocketBase
  import opened BlogSubmission

  class CreateBlogForm {
    var title: string
    var description: string
    var imgUrl: string
    var html: Option<string>
    var loading: bool
    var navigations: seq<Navigation>
    var toasts: seq<Toast>
    const client: Client

    function Fields(): FormFields
      reads this
    {
      FormFields(title, description, imgUrl, html)
    }

    /** Empty inputs, `loading` false; `html` is what the editor reports. */
    constructor (client: Client, html: Option<string>)
      ensures this.client == client && Fields() == FormFields("", "", "", html)
      ensures !loading && navigations == [] && toasts == []
    {
      this.client := client;
      title, description, imgUrl := "", "", "";
      this.html := html;
      loading := false;
      navigations, toasts := [], [];
    }

    /** The inputs' `onChange` handlers and the editor's edits. */
    method Edit(f: FormFields)
      modifies this
      ensures Fields() == f
      ensures loading == old(loading) && navigations == old(navigations) && toasts == old(toasts)
    {
      title, description, imgUrl, html := f.title, f.description, f.imgUrl, f.html;
    }

    /** `handleSubmit` up to the `await`. The submit button is
        `disabled={loading}`, so no submit starts while one is pending. */
    method Submit(user: Option<UserRecord>) returns (outcome: SubmitOutcome)
      requires !loading
      modifies this, client
      ensures Fields() == old(Fields()) && navigations == old(navigations)
      ensures outcome.Rejected? <==> !Accepts(Fields())
      ensures outcome.Rejected? ==>
        !loading && client.calls == old(client.calls) && toasts == old(toasts) + [MissingFields]
      ensures outcome.Aborted? <==> Accepts(Fields()) && user.None?
      ensures outcome.Aborted? ==>
        !loading && client.calls == old(client.calls) &&
        toasts == old(toasts) + [CreateError(NullUserMessage)]
      ensures outcome.Sent? ==>
        user.Some? && outcome.record == BlogRecord(Fields(), user.value) &&
        loading && client.calls == old(client.calls) + [Create("Blogs", outcome.record)] &&
        toasts == old(toasts)
    {
      if title == "" || description == "" || !HasContent(html) {
        toasts := toasts + [MissingFields];
        return Rejected;
      }
      loading := true;
      if user.None? {
        toasts := toasts + [CreateError(NullUserMessage)];
        loading := false;
        return Aborted;
      }
      var blogData := BlogRecord(Fields(), user.value);
      client.CreateRecord("Blogs", blogData);
      outcome := Sent(blogData);
    }

    /** `handleSubmit` after the create call answered `response`. */
    method Settle(response: CreateResponse)
      requires loading
      modifies this
      ensures Fields() == old(Fields()) && !loading
      ensures response.Created? ==>
        navigations == old(navigations) + [Push("/dashboard"), Refresh] && toasts == old(toasts) + [Published]
      ensures response.CreateFail? ==>
        navigations == old(navigations) && toasts == old(toasts) + [CreateError(response.message)]
    {
      match response {
        case Created =>
          toasts := toasts + [Published];
          navigations := navigations + [Push("/dashboard"), Refresh];
        case CreateFail(message) =>
          toasts := toasts + [CreateError(message)];
      }
      loading := false;
    }

    /** A whole submission. Loading is reset on every path, an accepted
        submit by a signed-in user makes exactly one create call, and only a
        successful one navigates. */
    method HandleSubmit(user: Option<UserRecord>, response: CreateResponse) returns (outcome: SubmitOutcome)
      requires !loading
      modifies this, client
      ensures Fields() == old(Fields()) && !loading
      ensures outcome.Rejected? <==> !Accepts(Fields())
      ensures outcome.Sent? <==> Accepts(Fields()) && user.Some?
      ensures outcome.Sent? ==>
        outcome.record == BlogRecord(Fields(), user.value) &&
        client.calls == old(client.calls) + [Create("Blogs", outcome.record)]
      ensures !outcome.Sent? ==> client.calls == old(client.calls)
      ensures navigations == old(navigations) +
        (if outcome.Sent? && response.Created? then [Push("/dashboard"), Refresh] else [])
    {
      outcome := Submit(user);
      if outcome.Sent? {
        Settle(response);
      }
    }
  }
}
