/**
 * The single-prompt provider: it wraps a prompt in a chat request for a
 * model fixed at construction and reads the answer text out of the reply.
 *
 * The reply is read with the System.Text.Json node API, where a JSON null
 * is a C# null: `Null` below stands for both a null and a missing node. The
 * chain `response?["choices"]?[0]?["message"]?["content"]?.GetValue<string>()`
 * short-circuits to null at a null link, but a name index on a non-object,
 * a position index on a non-array, a position past the end of an array and
 * `GetValue<string>` on a non-string all throw; those are `AccessError`s.
 */
module GroqLlmProvider {
  import opened Wrappers
  import opened Json
  import GroqApiClient

  datatype AccessError =
    | NotAnObject
    | NotAnArray
    | IndexOutOfRange(index: nat)
    | NotAString

  /** Why `GenerateAsync` ends without an answer: its completion call threw, or reading the reply did. */
  datatype GenerateError =
    | CompletionFailed(cause: GroqApiClient.ClientError)
    | ReplyUnreadable(access: AccessError)

  /** One link of a null-conditional chain: `?[name]` or `?[index]`. */
  datatype Step = Key(name: string) | Index(position: nat)

  /** Applies one link; a null node stays null. */
  function Apply(node: Value, step: Step): (r: Result<Value, AccessError>)
    ensures node.Null? ==> r == Success(Null)
    ensures step.Key? && node.Obj? ==> r == Success(Member(node.props, step.name))
    ensures step.Key? && !node.Null? && !node.Obj? ==> r == Failure(NotAnObject)
    ensures step.Index? && node.Arr? ==>
              if step.position < |node.items| then r == Success(node.items[step.position])
              else r == Failure(IndexOutOfRange(step.position))
    ensures step.Index? && !node.Null? && !node.Arr? ==> r == Failure(NotAnArray)
  {
    if node.Null? then Success(Null)
    else match step
      case Key(name) =>
        if node.Obj? then Success(Member(node.props, name)) else Failure(NotAnObject)
      case Index(i) =>
        if !node.Arr? then Failure(NotAnArray)
        else if i < |node.items| then Success(node.items[i])
        else Failure(IndexOutOfRange(i))
  }

  /** Applies the links of a chain in order, stopping at the first that throws. */
  function Navigate(node: Value, path: seq<Step>): (r: Result<Value, AccessError>)
    decreases |path|
    ensures node.Null? ==> r == Success(Null)
    ensures path == [] ==> r == Success(node)
  {
    if path == [] then Success(node)
    else match Apply(node, path[0])
      case Failure(e) => Failure(e)
      case Success(next) => Navigate(next, path[1..])
  }

  /**
   * Navigating a chain in two pieces: the first piece, then, unless it
   * threw, the second piece from where the first one ended.
   */
  lemma {:induction false} NavigateAppend(node: Value, p: seq<Step>, q: seq<Step>)
    ensures Navigate(node, p + q)
         == match Navigate(node, p)
            case Failure(e) => Failure(e)
            case Success(next) => Navigate(next, q)
    decreases |p|
  {
    if p == [] {
      assert p + q == q;
    } else {
      assert (p + q)[0] == p[0];
      assert (p + q)[1..] == p[1..] + q;
      match Apply(node, p[0])
      case Failure(_) =>
      case Success(next) => NavigateAppend(next, p[1..], q);
    }
  }

  /** `choices[0].message.content` */
  const AnswerPath: seq<Step> := [Key("choices"), Index(0), Key("message"), Key("content")]

  /** The text `GenerateAsync` returns for a reply; `""` where the chain yields null. */
  function Answer(response: Value): (r: Result<string, AccessError>)
    ensures forall s :: ContentIs(response, s) ==> r == Success(s)
    ensures BrokenChain(response) ==> r == Success("")
    ensures r.Failure? <==> !BrokenChain(response) && forall s :: !ContentIs(response, s)
  {
    match Navigate(response, AnswerPath)
    case Failure(e) => Failure(e)
    case Success(Null) => Success("")
    case Success(Str(s)) => assert ContentIs(response, s); Success(s)
    case Success(_) => Failure(NotAString)
  }

  /** The reply holds the string `s` at `choices[0].message.content`. */
  ghost predicate ContentIs(response: Value, s: string)
  {
    && response.Obj?
    && Member(response.props, "choices").Arr?
    && |Member(response.props, "choices").items| > 0
    && Member(response.props, "choices").items[0].Obj?
    && Member(Member(response.props, "choices").items[0].props, "message").Obj?
    && Member(Member(Member(response.props, "choices").items[0].props, "message").props, "content") == Str(s)
  }

  /**
   * The reply is null, or some link of the path is missing or null while
   * every link before it has the right shape.
   */
  ghost predicate BrokenChain(response: Value)
  {
    || response.Null?
    || (response.Obj? &&
        var choices := Member(response.props, "choices");
        || choices.Null?
        || (choices.Arr? && |choices.items| > 0 &&
            var choice := choices.items[0];
            || choice.Null?
            || (choice.Obj? &&
                var message := Member(choice.props, "message");
                || message.Null?
                || (message.Obj? && Member(message.props, "content").Null?))))
  }

  /** A string at the end of the path is returned unchanged. */
  lemma AnswerFound(response: Value, s: string)
    requires ContentIs(response, s)
    ensures Answer(response) == Success(s)
  {
  }

  /** A null reply or a missing or null link gives `""`, not an error. */
  lemma AnswerDefaultsToEmpty(response: Value)
    requires BrokenChain(response)
    ensures Answer(response) == Success("")
  {
  }

  /**
   * The converse of the two lemmas above: an answer is only ever the string
   * at the end of the path, or `""` for a broken chain, and every other
   * reply is an error.
   */
  lemma AnswerMeaning(response: Value)
    ensures forall s :: Answer(response) == Success(s) ==> ContentIs(response, s) || (s == "" && BrokenChain(response))
    ensures Answer(response).Failure? <==> !BrokenChain(response) && forall s :: !ContentIs(response, s)
  {
  }

  /** The provider of `GroqLlmProvider.cs`: a model name fixed for its lifetime. */
  class GroqLlmProvider {
    const model: string

    constructor (apiKey: string, model: string)
      ensures this.model == model
    {
      this.model := model;
    }

    /** The constructor that also receives the HTTP client to use. */
    constructor WithHttpClient(apiKey: string, model: string)
      ensures this.model == model
    {
      this.model := model;
    }

    /** The request `GenerateAsync` sends: the model and one user message. */
    function BuildRequest(prompt: string): (r: JsonObject)
      ensures r.Keys == {"model", "messages"}
      ensures Navigate(Obj(r), [Key("model")]) == Success(Str(model))
      ensures Navigate(Obj(r), [Key("messages"), Index(1)]) == Failure(IndexOutOfRange(1))
      ensures Navigate(Obj(r), [Key("messages"), Index(0), Key("role")]) == Success(Str("user"))
      ensures Navigate(Obj(r), [Key("messages"), Index(0), Key("content")]) == Success(Str(prompt))
      ensures Navigate(Obj(r), [Key("messages"), Index(0)]).Success?
              && Navigate(Obj(r), [Key("messages"), Index(0)]).value.Obj?
              && Navigate(Obj(r), [Key("messages"), Index(0)]).value.props.Keys == {"role", "content"}
    {
      map["model" := Str(model),
          "messages" := Arr([Obj(map["role" := Str("user"), "content" := Str(prompt)])])]
    }

    /**
     * `GenerateAsync`: build the request, hand it to the completion call
     * `complete`, and read the answer out of its reply. A completion call
     * that fails (a non-2xx status, a body that does not parse) ends the
     * call with that failure, as the exception passes through.
     */
    function Generate(prompt: string, complete: JsonObject -> Result<Value, GroqApiClient.ClientError>)
      : (r: Result<string, GenerateError>)
      ensures complete(BuildRequest(prompt)).Failure? ==>
                r == Failure(CompletionFailed(complete(BuildRequest(prompt)).error))
      ensures complete(BuildRequest(prompt)).Success? ==>
                var response := complete(BuildRequest(prompt)).value;
                && (forall s :: ContentIs(response, s) ==> r == Success(s))
                && (BrokenChain(response) ==> r == Success(""))
                && (r.Failure? <==> !BrokenChain(response) && forall s :: !ContentIs(response, s))
                && (r.Failure? ==> r.error.ReplyUnreadable?)
    {
      match complete(BuildRequest(prompt))
      case Failure(e) => Failure(CompletionFailed(e))
      case Success(response) =>
        match Answer(response)
        case Failure(e) => Failure(ReplyUnreadable(e))
        case Success(text) => Success(text)
    }
  }

  /** The reply to a prompt "hi" that says "hello" yields "hello". */
  lemma HelloScenario()
    ensures Answer(Obj(map["choices" := Arr([Obj(map["message" :=
              Obj(map["role" := Str("assistant"), "content" := Str("hello")])])])])) == Success("hello")
  {
  }

  /** An empty `choices` array is not a missing link: indexing it throws. */
  lemma EmptyChoicesThrows()
    ensures Answer(Obj(map["choices" := Arr([])])) == Failure(IndexOutOfRange(0))
  {
  }
}
