/** The billing exception a failed Billing API call raises: a message plus the
    ordered list of errors the provider reported, with accessors that select
    a human-readable first error from that list
    (web/app/Exceptions/ShopifyBillingException.php). */
module BillingErrors {
  import opened Optional

  /** An entry of a provider error item; `None` is an entry holding `null`. */
  type Fields = map<string, Option<string>>

  /** One item of the provider's error list: either an associative array with
      (optionally) a `message` and a `field` entry, or a scalar, represented by
      its string form. */
  datatype ErrorItem =
    | Keyed(fields: Fields)
    | Scalar(text: string)

  /** The exception: its message and the error list given to the constructor. */
  datatype BillingException = BillingException(message: string, errors: seq<ErrorItem>)

  /** The text used when a keyed error item has neither a message nor a field. */
  const UnknownError: string := "Unknown error"

  /** The constructor; the error list defaults to the empty list. */
  function New(message: string, errors: seq<ErrorItem> := []): (e: BillingException)
    ensures e.message == message
    ensures e.errors == errors
  {
    BillingException(message, errors)
  }

  /** `getMessage()`, inherited from PHP's Exception: the message the
      exception was constructed with. */
  function GetMessage(e: BillingException): (m: string)
    ensures New(m, e.errors) == e
  {
    e.message
  }

  /** `getErrors()`: the error list the exception was constructed with. */
  function GetErrors(e: BillingException): (r: seq<ErrorItem>)
    ensures New(e.message, r) == e
  {
    e.errors
  }

  /** `hasErrors()`: the error list is not empty. */
  function HasErrors(e: BillingException): (r: bool)
    ensures r <==> |GetErrors(e)| > 0
    ensures !r <==> GetErrors(e) == []
  {
    e.errors != []
  }

  /** PHP's `$a[$k] ?? ...`: an entry counts only when the key is present and
      its value is not `null`. */
  predicate IsSet(fields: Fields, key: string)
  {
    key in fields && fields[key].Some?
  }

  /** The chain `$a[keys[0]] ?? $a[keys[1]] ?? ... ?? fallback`: the value of
      the first key that is set, or `fallback` when none of them is. */
  function Coalesce(fields: Fields, keys: seq<string>, fallback: string): (r: string)
    ensures (forall i :: 0 <= i < |keys| ==> !IsSet(fields, keys[i])) ==> r == fallback
    ensures forall i :: 0 <= i < |keys| && IsSet(fields, keys[i])
                        && (forall j :: 0 <= j < i ==> !IsSet(fields, keys[j]))
                        ==> r == fields[keys[i]].value
    decreases |keys|
  {
    if keys == [] then fallback
    else if IsSet(fields, keys[0]) then fields[keys[0]].value
    else Coalesce(fields, keys[1..], fallback)
  }

  /** The text `getFirstError()` gives for one error item. */
  function Describe(item: ErrorItem): (r: string)
    ensures item.Keyed? && IsSet(item.fields, "message") ==> r == item.fields["message"].value
    ensures item.Keyed? && !IsSet(item.fields, "message") && IsSet(item.fields, "field")
            ==> r == item.fields["field"].value
    ensures item.Keyed? && !IsSet(item.fields, "message") && !IsSet(item.fields, "field")
            ==> r == UnknownError
    ensures item.Scalar? ==> r == item.text
  {
    match item
    case Keyed(fields) => Coalesce(fields, ["message", "field"], UnknownError)
    case Scalar(text) => text
  }

  /** `getFirstError()`: `null` for an empty error list, otherwise the text of
      the first item in order. */
  function GetFirstError(e: BillingException): (r: Option<string>)
    ensures r.None? <==> !HasErrors(e)
    ensures r.Some? ==> r.value == Describe(GetErrors(e)[0])
  {
    if e.errors == [] then None
    else Some(Describe(e.errors[0]))
  }
}
