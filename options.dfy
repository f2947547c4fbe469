/** The option-object view of the configuration used by the sidebar and the
    issue warning: each user option is an object with a default and a current
    value, read with `get()` and written with `set()`. The object itself is not
    part of this model; this class only stands for one named slot of it. */
module Options {

  class OptionSlot<T> {
    /** `.default`: the value the option starts with. */
    const default: T
    var value: T

    constructor (default: T)
      ensures this.default == default && value == default
    {
      this.default := default;
      value := default;
    }

    /** `.get()`. */
    function Get(): (r: T)
      reads this
      ensures r == value
    {
      value
    }

    /** `.set(v)`. */
    method Set(v: T)
      modifies this
      ensures value == v && Get() == v
    {
      value := v;
    }
  }
}
