/** The machine as an object: methods change its state call by call. */
module Machines {
  import opened Errors
  import opened States

  datatype Result<+T> = Success(value: T) | Failure(error: Error) {
    predicate IsFailure() { Failure? }
    function PropagateFailure<U>(): Result<U>
      requires Failure?
    {
      Failure(error)
    }
    function Extract(): T
      requires Success?
    {
      value
    }
  }

  function ToResult<T>(o: Out<T>): Result<T> {
    if o.Ok? then Success(o.value) else Failure(o.error)
  }

  /** What a method that ended in state `s` with result `r` has done, as an outcome. */
  function Did<T>(s: State, r: Result<T>): Out<T> {
    if r.Success? then Ok(s, r.value) else Err(s, r.error)
  }

  class Machine {
    const env: Env
    var s: State

    constructor (env: Env, s: State)
      ensures this.env == env && this.s == s
    {
      this.env, this.s := env, s;
    }

    /** Make one call to the operating system or the key library, whose outcome on the current state is `o`. */
    method Call<T>(o: Out<T>) returns (r: Result<T>)
      modifies this
      ensures s == o.s && r == ToResult(o)
    {
      s := o.s;
      r := ToResult(o);
    }

    /** Release a native handle. */
    method Close(h: nat)
      modifies this
      ensures s == States.Close(old(s), h)
    {
      s := States.Close(s, h);
    }
  }
}
