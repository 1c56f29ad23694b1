/** The part of an Angular form control that the validators and the
    validation-message builder read: its value, its interaction flags and
    its current validation errors. */
module Forms {

  datatype Option<+T> = None | Some(value: T)

  /** A validation-error object, given as the list of its keys in insertion
      order. The model keeps only the keys, which is all the message builder
      reads; what each key maps to (`true` for the custom validators, an
      object for some built-in ones) is dropped. An object's keys are
      distinct, so a list with a repeated key stands for no error object.
      A validator that finds no error returns `None`, the framework's
      `null`. */
  type ValidationErrors = seq<string>

  /** The state of one control. `errors` is what the framework last computed
      from the control's validators. */
  datatype Control<V> = Control(
    value: V,
    pristine: bool,
    touched: bool,
    dirty: bool,
    errors: Option<ValidationErrors>)

  /** The value of a numeric control: JavaScript `undefined`, `NaN`, or a
      number (modelled as an exact real). */
  datatype NumberValue = Undefined | NaN | Num(r: real)
}
