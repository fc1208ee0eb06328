/** The login page: the user record derived from the typed e-mail address,
    and the submit handler that signs that user in. */
module Login {
  import opened Wrappers
  import opened Text
  import opened Browser
  import Auth

  /** `email.split("@")[0]`: everything before the first "@", or the whole
      address when it has none. */
  function NameFromEmail(email: string): (name: string)
    ensures StartsWith(email, name)
    ensures '@' !in name
    ensures |name| == |email| || email[|name|] == '@'
  {
    if email == [] || email[0] == '@' then [] else [email[0]] + NameFromEmail(email[1..])
  }

  /** `email.charAt(0).toUpperCase()`: empty for an empty address. */
  function AvatarFromEmail(email: string): string {
    if email == [] then [] else [UpperChar(email[0])]
  }

  /** The record `handleSubmit` passes to `login`. The password plays no
      part in it. */
  function DeriveUser(email: string): User {
    User("1", email, NameFromEmail(email), AvatarFromEmail(email))
  }

  /** The derived record keeps the address, has id "1", a name that is a
      prefix without "@" and a one-letter (or empty) avatar. */
  lemma DerivedUserShape(email: string)
    ensures DeriveUser(email).id == "1" && DeriveUser(email).email == email
    ensures StartsWith(email, DeriveUser(email).name) && '@' !in DeriveUser(email).name
    ensures |DeriveUser(email).avatar| == (if email == [] then 0 else 1)
    ensures email != [] ==> DeriveUser(email).avatar[0] == UpperChar(email[0])
  {
  }

  /** An address is its name, then "@", then the rest; without "@" the name
      is the whole address. */
  lemma EmailSplitsAtName(email: string)
    ensures '@' in email ==> email == NameFromEmail(email) + "@" + email[|NameFromEmail(email)| + 1..]
    ensures '@' !in email ==> NameFromEmail(email) == email
  {
  }

  /** The name recovers the local part of any address built from one. */
  lemma {:induction false} NameOfLocalPart(local: string, domain: string)
    requires '@' !in local
    ensures NameFromEmail(local + "@" + domain) == local
  {
    if local != [] {
      assert (local + "@" + domain)[1..] == local[1..] + "@" + domain;
      NameOfLocalPart(local[1..], domain);
    }
  }

  class LoginPage {
    var email: string
    var password: string
    var isLoading: bool

    constructor ()
      ensures email == "" && password == "" && !isLoading
    {
      email, password, isLoading := "", "", false;
    }

    /** `handleSubmit`: show the loading state (it is never cleared), sign
        in the user derived from the e-mail, then go to "/dashboard". */
    method Submit(auth: Auth.AuthProvider)
      modifies this, auth, auth.storage, auth.router
      ensures isLoading && email == old(email) && password == old(password)
      ensures auth.user == Some(DeriveUser(email)) && auth.storage.user == Some(DeriveUser(email))
      ensures auth.router.history == old(auth.router.history) + ["/dashboard"]
      ensures auth.isLoading == old(auth.isLoading) && auth.storage.phoneModel == old(auth.storage.phoneModel)
    {
      isLoading := true;
      auth.Login(DeriveUser(email));
      auth.router.Push("/dashboard");
    }
  }
}
