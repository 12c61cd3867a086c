/** seal/model/_response.py: `Response`, the envelope every HTTP handler returns. */
module Responses {

  class Response<T> {
    var code: int
    var message: string
    var data: T

    /**
     * `Response.build(data)`: code 0, an empty message and the given data. The data is always
     * given here; the source's `data=None` default is a value of `T` the caller passes.
     */
    constructor Build(data: T)
      ensures code == 0 && message == "" && this.data == data
    {
      code := 0;
      message := "";
      this.data := data;
    }

    /** `success(message)`: code 0 and the message (`"success"` by default); the data stays. */
    method Success(message: string := "success") returns (self: Response<T>)
      modifies this
      ensures self == this
      ensures code == 0 && this.message == message && data == old(data)
    {
      code := 0;
      this.message := message;
      return this;
    }

    /** `error(code, message)`: the code (-1 by default) and the message (`"error"` by default); the data stays. */
    method Error(code: int := -1, message: string := "error") returns (self: Response<T>)
      modifies this
      ensures self == this
      ensures this.code == code && this.message == message && data == old(data)
    {
      this.code := code;
      this.message := message;
      return this;
    }
  }
}
