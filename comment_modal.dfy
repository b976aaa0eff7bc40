/** The comments dialog of a post: loading its comments and adding one. */
module CommentModal {
  import opened Wrappers
  import opened JsBuiltins

  /** A comment as the server lists it (timestamps are not modelled). */
  datatype Comment = Comment(id: int, username: string, body: string)

  const MaxCommentLength := 500

  const LoadFailed := "Falha ao carregar comentários."
  const LoginRequired := "Você precisa estar logado para comentar."
  const EmptyComment := "O comentário não pode estar vazio."
  const TooLong := "Comentário muito longo (máx. 500 caracteres)."
  const AddFailed := "Falha ao adicionar comentário."

  /** The guard chain of `handleAddComment`: logged in, then not blank, then at most
      500 characters. The first check that fails gives the error; None lets it go. */
  function CommentRejection(isLoggedIn: bool, body: string): (r: Option<string>)
    ensures !isLoggedIn ==> r == Some(LoginRequired)
    ensures isLoggedIn && IsBlank(body) ==> r == Some(EmptyComment)
    ensures isLoggedIn && !IsBlank(body) && |body| > MaxCommentLength ==> r == Some(TooLong)
    ensures r.None? <==> isLoggedIn && !IsBlank(body) && |body| <= MaxCommentLength
  {
    if !isLoggedIn then Some(LoginRequired)
    else if Trim(body) == "" then Some(EmptyComment)
    else if |body| > MaxCommentLength then Some(TooLong)
    else None
  }

  /** Reply to `GET /posts/<id>/comments`. */
  datatype CommentsResponse =
    | CommentsFound(comments: seq<Comment>)
    | CommentsHttpError
    | CommentsNetworkError(message: string)

  /** Reply to `POST /posts/<id>/comments`; a rejection carries the server's `message`
      field when it has one. */
  datatype AddCommentResponse =
    | CommentAdded(comment: Comment)
    | CommentRejected(serverMessage: Option<string>)
    | CommentNetworkError(message: string)

  /** `POST /posts/<postId>/comments` with the author's id and the text. */
  datatype CommentRequest = CommentRequest(postId: int, userId: Option<JsInt>, body: string)

  /** The error `fetchComments` shows for a failed load. */
  function LoadError(response: CommentsResponse): (r: string)
    requires !response.CommentsFound?
    ensures response.CommentsHttpError? ==> r == LoadFailed
  {
    if response.CommentsHttpError? then LoadFailed else response.message
  }

  /** The error `handleAddComment` shows when the server does not take the comment:
      the server's message, or the default when it has none. */
  function AddError(response: AddCommentResponse): (r: string)
    requires !response.CommentAdded?
    ensures response.CommentRejected? ==> r != ""
    ensures response.CommentRejected? && Truthy(response.serverMessage) ==> r == response.serverMessage.value
    ensures response.CommentRejected? && !Truthy(response.serverMessage) ==> r == AddFailed
  {
    if response.CommentRejected? then OrDefault(response.serverMessage, AddFailed) else response.message
  }

  /** The `CommentModal` component's state for one post. */
  class CommentPanel {
    const postId: int
    var comments: seq<Comment>
    var newCommentBody: string
    var loading: bool
    var error: Option<string>
    var addCommentError: Option<string>

    /** The initial state, before the load effect runs. */
    constructor (postId: int)
      ensures this.postId == postId
      ensures comments == [] && newCommentBody == "" && loading
      ensures error.None? && addCommentError.None?
    {
      this.postId := postId;
      comments := [];
      newCommentBody := "";
      loading := true;
      error := None;
      addCommentError := None;
    }

    /** The text area's `onChange`. */
    method Edit(text: string)
      modifies this
      ensures newCommentBody == text
      ensures comments == old(comments) && loading == old(loading)
      ensures error == old(error) && addCommentError == old(addCommentError)
    {
      newCommentBody := text;
    }

    /** `fetchComments`: always ends not loading; a successful load replaces the
        comments, a failed one keeps them and sets the error. */
    method FetchComments(response: CommentsResponse)
      modifies this
      ensures !loading
      ensures response.CommentsFound? ==> comments == response.comments && error.None?
      ensures !response.CommentsFound? ==> comments == old(comments) && error == Some(LoadError(response))
      ensures newCommentBody == old(newCommentBody) && addCommentError == old(addCommentError)
    {
      loading := true;
      error := None;
      match response {
        case CommentsFound(list) =>
          comments := list;
        case CommentsHttpError =>
          error := Some(LoadFailed);
        case CommentsNetworkError(message) =>
          error := Some(message);
      }
      loading := false;
    }

    /** `handleAddComment`. `response` is the reply if the comment is sent and
        `reload` the reply to the comments refetch that follows a success; `added` is
        what `onCommentAdded` receives, when it is provided (`hasCallback`). */
    method HandleAddComment(isLoggedIn: bool, userId: Option<JsInt>, response: AddCommentResponse,
                            reload: CommentsResponse, hasCallback: bool)
      returns (request: Option<CommentRequest>, added: Option<Comment>)
      modifies this
      ensures request.None? <==> CommentRejection(isLoggedIn, old(newCommentBody)).Some?
      ensures request.None? ==>
        && addCommentError == CommentRejection(isLoggedIn, old(newCommentBody))
        && newCommentBody == old(newCommentBody) && added.None?
        && comments == old(comments) && loading == old(loading) && error == old(error)
      ensures request.Some? ==> request.value == CommentRequest(postId, userId, old(newCommentBody))
      ensures request.Some? && response.CommentAdded? ==>
        && addCommentError.None? && newCommentBody == "" && !loading
        && (reload.CommentsFound? ==> comments == reload.comments && error.None?)
        && (!reload.CommentsFound? ==> comments == old(comments) && error == Some(LoadError(reload)))
        && added == (if hasCallback then Some(response.comment) else None)
      ensures request.Some? && !response.CommentAdded? ==>
        && addCommentError == Some(AddError(response)) && newCommentBody == old(newCommentBody)
        && added.None? && comments == old(comments) && loading == old(loading) && error == old(error)
    {
      addCommentError := None;
      added := None;
      var rejection := CommentRejection(isLoggedIn, newCommentBody);
      if rejection.Some? {
        addCommentError := rejection;
        return None, None;
      }
      request := Some(CommentRequest(postId, userId, newCommentBody));
      match response {
        case CommentAdded(comment) =>
          newCommentBody := "";
          FetchComments(reload);
          if hasCallback {
            added := Some(comment);
          }
        case CommentRejected(serverMessage) =>
          addCommentError := Some(OrDefault(serverMessage, AddFailed));
        case CommentNetworkError(message) =>
          addCommentError := Some(message);
      }
    }
  }
}
