/**
  The object-oriented face of the matcher: `Assert.model(expected, message)`
  binds a descriptor and an optional custom message once, and
  `validate(actual)` checks a value against them from the root path.
 */
module Facade {
  import opened JsValues
  import opened Matcher

  class Assert {
    var model: Value
    var customErrorMessage: Option<string>

    /** The private constructor: stores the descriptor and the custom message. */
    constructor (model: Value, customErrorMessage: Option<string>)
      ensures this.model == model && this.customErrorMessage == customErrorMessage
    {
      this.model := model;
      this.customErrorMessage := customErrorMessage;
    }

    /** `Assert.model(expected, customErrorMessage)`. */
    static method Model(expected: Value, customErrorMessage: Option<string>) returns (a: Assert)
      ensures fresh(a)
      ensures a.model == expected && a.customErrorMessage == customErrorMessage
    {
      a := new Assert(expected, customErrorMessage);
    }

    /** `validate(actual)`: `check` against the bound descriptor and message, from `root`. */
    method Validate(actual: Value) returns (r: Outcome)
      ensures r == Check(actual, model, customErrorMessage, ROOT)
    {
      r := Check(actual, model, customErrorMessage, ROOT);
    }
  }

  /** `Assert.model(e, m).validate(a)` is `Assert.check(a, e, m)`. */
  method ModelThenValidate(expected: Value, customErrorMessage: Option<string>, actual: Value) returns (r: Outcome)
    ensures r == Check(actual, expected, customErrorMessage, ROOT)
  {
    var a := Assert.Model(expected, customErrorMessage);
    r := a.Validate(actual);
  }
}
