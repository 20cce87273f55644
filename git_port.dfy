/** What the model sees of git: the answers of the git wrapper's calls, taken as oracle
    inputs. The calls themselves (subprocesses) are not part of this model. */
module GitPort {

  /** The answer of one git call: a value, or an error. */
  datatype Answer<T> = Answered(value: T) | Errored {

    /** The value the Go code goes on with when it discards the error (`v, _ := ...`):
        the call's zero value on failure. */
    function OrZero(zero: T): (r: T)
      ensures Errored? ==> r == zero
      ensures Answered? ==> r == value
    {
      if Answered? then value else zero
    }
  }

  /** A configured git remote and the branches git knows on it. */
  datatype Remote = Remote(name: string, branches: seq<string>)
}
