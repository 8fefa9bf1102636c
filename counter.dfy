/**
 * The per-file counter of `statistic_code`: the read callback that settles
 * the read promise, and the loop that counts characters and lines.
 */
module Counter {
  import opened Wrappers

  /** What `fs.readFile` hands its callback: the decoded content, or an error's text. */
  datatype ReadOutcome = Ok(content: string) | Err(msg: string)

  /**
   * One effect of the read callback, in the order the callback performs them:
   * resolving or rejecting the read promise, or throwing out of the callback.
   */
  datatype CallbackStep = Resolve(code: string) | Reject(error: string) | ThrowTypeError

  /**
   * The callback as written: on an error it rejects and then still evaluates
   * `data.toString()` with `data` undefined, which throws a TypeError out of
   * the callback.
   */
  function ReadCallbackAsWritten(read: ReadOutcome): (steps: seq<CallbackStep>)
    ensures Settlement(steps) == Some(read)
    ensures ThrowTypeError in steps <==> read.Err?
  {
    match read
    case Ok(content) => [Resolve(content)]
    case Err(msg) => [Reject(msg), ThrowTypeError]
  }

  /** The callback as evidently intended: reject and return on an error, otherwise resolve. */
  function ReadCallback(read: ReadOutcome): (steps: seq<CallbackStep>)
    ensures ThrowTypeError !in steps
    ensures Settlement(steps) == Some(read)
  {
    match read
    case Ok(content) => [Resolve(content)]
    case Err(msg) => [Reject(msg)]
  }

  /** A promise settles once, with the first `resolve` or `reject` it receives. */
  function Settlement(steps: seq<CallbackStep>): (outcome: Option<ReadOutcome>)
    ensures outcome == None <==> forall i :: 0 <= i < |steps| ==> steps[i] == ThrowTypeError
  {
    if steps == [] then None
    else match steps[0]
      case Resolve(code) => Some(Ok(code))
      case Reject(error) => Some(Err(error))
      case ThrowTypeError => Settlement(steps[1..])
  }

  /**
   * As written, every read error makes the callback throw, even though the
   * promise has already been rejected with the right error.
   */
  lemma ReadErrorThrows(msg: string)
    ensures Settlement(ReadCallbackAsWritten(Err(msg))) == Some(Err(msg))
    ensures ThrowTypeError in ReadCallbackAsWritten(Err(msg))
    ensures ThrowTypeError !in ReadCallback(Err(msg))
  {
  }

  /**
   * The counting loop of the fulfilment handler: `char_num` is the length of
   * the content and `line_num` is 1 plus the number of '\n' it holds.
   */
  method CountCode(code: string) returns (charNum: nat, lineNum: nat)
    ensures charNum == |code|
    ensures lineNum == 1 + multiset(code)['\n']
  {
    charNum := |code|;
    lineNum := 1;
    for i := 0 to |code|
      invariant lineNum == 1 + multiset(code[..i])['\n']
    {
      assert code[..i + 1] == code[..i] + [code[i]];
      if code[i] == '\n' {
        lineNum := lineNum + 1;
      }
    }
    assert code[..|code|] == code;
  }
}
