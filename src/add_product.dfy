/** The admin's add-product dialog (AddProductModal). */
module AddProduct {
  import opened Wrappers
  import opened Api
  import opened Domain
  import opened ProductForm
  import Auth

  class AddProductDialog {
    const session: Auth.SessionStore
    var form: FormText
    var isLoading: bool

    constructor (session: Auth.SessionStore)
      ensures this.session == session && form == Blank() && !isLoading
    {
      this.session := session;
      form := Blank();
      isLoading := false;
    }

    /** handleChange: the named field takes the typed value, nothing else changes. */
    method HandleChange(f: Field, value: string)
      modifies this
      ensures form == Set(old(form), f, value)
      ensures Get(form, f) == value && forall g :: g != f ==> Get(form, g) == Get(old(form), g)
      ensures isLoading == old(isLoading)
    {
      form := Set(form, f, value);
    }

    /**
     * handleSubmit: without a signed-in user nothing happens. Otherwise the form goes to the server
     * as a new, active product of that user; on success the form is reset and the dialog closes, on
     * failure the form is kept for another attempt.
     */
    method HandleSubmit(reply: Reply<()>) returns (calls: seq<Request>, closed: bool)
      modifies this
      ensures !SignedIn(session.user) ==>
        calls == [] && !closed && form == old(form) && isLoading == old(isLoading)
      ensures SignedIn(session.user) ==>
        calls == [CreateProduct(session.user.value.id, PayloadOf(old(form), true))] && !isLoading
      ensures SignedIn(session.user) && reply.Ok? ==> closed && form == Blank()
      ensures SignedIn(session.user) && reply.Failed? ==> !closed && form == old(form)
    {
      calls := [];
      closed := false;
      if !SignedIn(session.user) {
        return;
      }
      isLoading := true;
      calls := [CreateProduct(session.user.value.id, PayloadOf(form, true))];
      match reply {
        case Ok(_) => {
          form := Blank();
          closed := true;
        }
        case Failed(_) => {
        }
      }
      isLoading := false;
    }
  }
}
