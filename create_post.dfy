/** The post composer: the checks made before a post is sent, and how the form's
    text and message change with the server's reply. */
module CreatePost {
  import opened Wrappers
  import opened JsBuiltins
  import opened Posts

  const MaxPostLength := 280

  const LoginRequired := "Você precisa estar logado para criar um post."
  const EmptyPost := "O conteúdo do post não pode estar vazio."
  const ConnectionFailed := "Erro de conexão ao publicar post."
  const ErrorPrefix := "Erro ao publicar post: "

  /** The message for a body of `length` characters, over the limit. */
  function TooLongMessage(length: nat): (r: string)
    ensures |r| > 11 + |IntToString(length)|
    ensures r[11..11 + |IntToString(length)|] == IntToString(length)
  {
    "O post tem " + IntToString(length) + " caracteres. O limite é 280."
  }

  /** The guard chain of `handleSubmit`: logged in, then not blank, then at most 280
      characters. The first check that fails gives the message; None lets the post go. */
  function PostRejection(isLoggedIn: bool, body: string): (r: Option<string>)
    ensures !isLoggedIn ==> r == Some(LoginRequired)
    ensures isLoggedIn && IsBlank(body) ==> r == Some(EmptyPost)
    ensures isLoggedIn && !IsBlank(body) && |body| > MaxPostLength ==> r == Some(TooLongMessage(|body|))
    ensures r.None? <==> isLoggedIn && !IsBlank(body) && |body| <= MaxPostLength
  {
    if !isLoggedIn then Some(LoginRequired)
    else if Trim(body) == "" then Some(EmptyPost)
    else if |body| > MaxPostLength then Some(TooLongMessage(|body|))
    else None
  }

  /** `POST /posts` with the author's id and the text. */
  datatype CreateRequest = CreateRequest(userId: Option<JsInt>, body: string)

  /** Reply to `POST /posts`; a network error or an unreadable body is a connection error. */
  datatype CreateResponse =
    | CreateOk(serverMessage: string, post: Post)
    | CreateRejected(serverMessage: string)
    | CreateConnectionError

  /** The `CreatePost` component's state. */
  class PostForm {
    var body: string
    var message: string

    constructor ()
      ensures body == "" && message == ""
    {
      body := "";
      message := "";
    }

    /** The text area's `onChange`. */
    method Edit(text: string)
      modifies this
      ensures body == text && message == old(message)
    {
      body := text;
    }

    /** `handleSubmit`. `response` is the reply if the post is sent; `created` is what
        `onPostCreated` receives, when it is provided (`hasCallback`). */
    method HandleSubmit(isLoggedIn: bool, userId: Option<JsInt>, response: CreateResponse, hasCallback: bool)
      returns (request: Option<CreateRequest>, created: Option<Post>)
      modifies this
      ensures request.None? <==> PostRejection(isLoggedIn, old(body)).Some?
      ensures request.None? ==>
        message == PostRejection(isLoggedIn, old(body)).value && body == old(body) && created.None?
      ensures request.Some? ==> request.value == CreateRequest(userId, old(body))
      ensures request.Some? && response.CreateOk? ==>
        && message == response.serverMessage && body == ""
        && created == (if hasCallback then Some(response.post) else None)
      ensures request.Some? && response.CreateRejected? ==>
        message == ErrorPrefix + response.serverMessage && body == old(body) && created.None?
      ensures request.Some? && response.CreateConnectionError? ==>
        message == ConnectionFailed && body == old(body) && created.None?
    {
      created := None;
      var rejection := PostRejection(isLoggedIn, body);
      if rejection.Some? {
        message := rejection.value;
        return None, None;
      }
      message := "Publicando post...";
      request := Some(CreateRequest(userId, body));
      match response {
        case CreateOk(serverMessage, post) =>
          message := serverMessage;
          body := "";
          if hasCallback {
            created := Some(post);
          }
        case CreateRejected(serverMessage) =>
          message := ErrorPrefix + serverMessage;
        case CreateConnectionError =>
          message := ConnectionFailed;
      }
    }
  }
}
