/**
 * The HTTP client the storage layer talks to, reduced to what that layer can
 * observe: the request it issues and the outcome it gets back. The outcome of
 * each request is an input (the `reply` parameter), so that every behaviour
 * of the remote side is covered; the client records each request in `calls`.
 */
module Transport {
  import opened Common

  /** Identifier of an asynchronous task on the remote system. */
  type Upid = string

  /** One request issued to the remote API. */
  datatype Call =
    | GetCall(path: string)
    | PostCall(path: string, form: map<string, string>)
    | UploadCall(path: string, form: map<string, string>, file: string)
    | DeleteCall(path: string)

  /**
   * What the remote side does with one request: the value it leaves in the
   * caller's out-parameter and the error it returns (None for success).
   */
  datatype Response<T> = Response(value: T, err: Option<Error>)

  /** The caller's handle on an asynchronous task (built by `NewTask`). */
  datatype Task = Task(upid: Upid, client: Client)

  class Client {
    /** Every request issued through this client, oldest first. */
    var calls: seq<Call>

    constructor ()
      ensures calls == []
    {
      calls := [];
    }

    /** GET `path`, decoding the body into the returned value. */
    method Get<T>(path: string, reply: Response<T>) returns (value: T, err: Option<Error>)
      modifies this
      ensures calls == old(calls) + [GetCall(path)]
      ensures value == reply.value && err == reply.err
    {
      calls := calls + [GetCall(path)];
      value, err := reply.value, reply.err;
    }

    /** POST the form `form` to `path`. */
    method Post<T>(path: string, form: map<string, string>, reply: Response<T>) returns (value: T, err: Option<Error>)
      modifies this
      ensures calls == old(calls) + [PostCall(path, form)]
      ensures value == reply.value && err == reply.err
    {
      calls := calls + [PostCall(path, form)];
      value, err := reply.value, reply.err;
    }

    /** Multipart upload of the open `file` with the form `form` to `path`. */
    method Upload<T>(path: string, form: map<string, string>, file: string, reply: Response<T>)
      returns (value: T, err: Option<Error>)
      modifies this
      ensures calls == old(calls) + [UploadCall(path, form, file)]
      ensures value == reply.value && err == reply.err
    {
      calls := calls + [UploadCall(path, form, file)];
      value, err := reply.value, reply.err;
    }

    /** DELETE `path`. */
    method Delete<T>(path: string, reply: Response<T>) returns (value: T, err: Option<Error>)
      modifies this
      ensures calls == old(calls) + [DeleteCall(path)]
      ensures value == reply.value && err == reply.err
    {
      calls := calls + [DeleteCall(path)];
      value, err := reply.value, reply.err;
    }
  }
}
