/** The parts of an Express request/response pair the middleware reads and writes. */
module Http {
  import opened Common

  /** A `profiles` row: its role and the rest of its columns. */
  datatype Profile = Profile(role: string, row: map<string, Json>)

  /** `req.user` as the authentication middleware fills it in. */
  datatype User = User(id: string, email: Option<string>, role: string, profile: Profile)

  /** A response that was sent: status and JSON body. */
  datatype Reply = Reply(status: int, body: Json)

  /** A call of `next()`, or of `next(error)`. */
  datatype NextCall = Continue | WithError(error: string)

  /** `{ error: message }`. */
  function ErrorBody(message: string): Json {
    JObj(map["error" := JStr(message)])
  }

  /** One request travelling through the middleware chain. */
  class Exchange {
    var authorization: Option<string>   // the `Authorization` header
    var user: Option<User>              // `req.user`
    var body: Json
    var params: Json
    var query: Json
    var reply: Option<Reply>            // what `res.status(..).json(..)` sent
    var nextCalls: seq<NextCall>        // the calls of `next`, in order

    constructor (authorization: Option<string>, body: Json, params: Json, query: Json)
      ensures this.authorization == authorization && this.body == body
      ensures this.params == params && this.query == query
      ensures user.None? && reply.None? && nextCalls == []
    {
      this.authorization := authorization;
      this.user := None;
      this.body := body;
      this.params := params;
      this.query := query;
      this.reply := None;
      this.nextCalls := [];
    }

    /** `res.status(status).json(body)`. */
    method Send(status: int, body: Json)
      modifies this
      ensures reply == Some(Reply(status, body))
      ensures authorization == old(authorization) && user == old(user) && this.body == old(this.body)
      ensures params == old(params) && query == old(query) && nextCalls == old(nextCalls)
    {
      reply := Some(Reply(status, body));
    }

    /** `next()` or `next(error)`. */
    method Next(call: NextCall)
      modifies this
      ensures nextCalls == old(nextCalls) + [call]
      ensures authorization == old(authorization) && user == old(user) && body == old(body)
      ensures params == old(params) && query == old(query) && reply == old(reply)
    {
      nextCalls := nextCalls + [call];
    }
  }
}
