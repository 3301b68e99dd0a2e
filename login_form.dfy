/**
 * The API-key form: a key is accepted only if it starts with `sk-`; an
 * accepted key is stored verbatim in session storage and the form
 * navigates to the home page, otherwise an alert is shown.
 */
module LoginForm {
  import opened JsString
  import opened Store

  const KeyPrefix := "sk-"
  /** Session-storage key of the API key. */
  const ApiKeyItem := "openai_api_key"
  const InvalidKeyAlert := "Invalid API key. Please enter a valid OpenAI API key."
  const HomeRoute := "/"

  /** `apiKey.startsWith("sk-")` */
  predicate AcceptsKey(key: string) {
    StartsWith(key, KeyPrefix)
  }

  /** What a submission shows the user. */
  datatype Submission = Alerted(message: string) | Navigated(route: string)

  /** The check reads the first three characters as they are. */
  lemma AcceptsKeyIff(key: string)
    ensures AcceptsKey(key) <==> |key| >= 3 && key[0] == 's' && key[1] == 'k' && key[2] == '-'
  {
  }

  /** The bare prefix is already a valid key. */
  lemma BarePrefixAccepted()
    ensures AcceptsKey("sk-")
  {
  }

  /** There is no trimming: a key with leading whitespace is rejected. */
  lemma LeadingWhitespaceRejected(key: string)
    requires |key| > 0 && IsWhitespace(key[0])
    ensures !AcceptsKey(key)
  {
  }

  class Form {
    var apiKey: string

    constructor ()
      ensures apiKey == ""
    {
      apiKey := "";
    }

    /** The input's `onChange`. */
    method SetApiKey(value: string)
      modifies this
      ensures apiKey == value
    {
      apiKey := value;
    }

    /** `handleSubmit`: reject with an alert and no write, or store the key
        unchanged under `openai_api_key` and go to `/`. */
    method HandleSubmit(session: SessionStorage) returns (shown: Submission)
      modifies session
      ensures !AcceptsKey(apiKey) ==> shown == Alerted(InvalidKeyAlert) && session.items == old(session.items)
      ensures AcceptsKey(apiKey) ==>
                shown == Navigated(HomeRoute) && session.items == old(session.items)[ApiKeyItem := apiKey]
    {
      if !AcceptsKey(apiKey) {
        return Alerted(InvalidKeyAlert);
      }
      session.SetItem(ApiKeyItem, apiKey);
      return Navigated(HomeRoute);
    }
  }
}
