/**
 * WhatsApp provider configurations (`whatsapp.config`): their verification
 * state, webhook address and verify token, and the operators that the user
 * form keeps in step with each user's allowed and default providers.
 */
module Providers {
  import opened Wrappers
  import opened Text
  import Http

  datatype ConfigState = Draft | Verified | VerificationError

  datatype ConfigError = VerificationFailed(reply: Http.Reply)

  /** ASCII letters, digits and punctuation: the characters a verify token draws from. */
  const TokenAlphabet: string :=
    "abcdefghijklmnopqrstuvwxyzABCDEFGHIJKLMNOPQRSTUVWXYZ0123456789!\"#$%&'()*+,-./:;<=>?@[\\]^_`{|}~"

  const TokenLength: nat := 32

  const WebhookPath: string := "/whatsapp/webhook/"

  /** The address Meta is told to call for provider `id`. */
  function WebhookUrl(baseUrl: string, id: nat): (url: string)
    ensures StartsWith(url, baseUrl + WebhookPath)
    ensures IsDigitString(url[|baseUrl + WebhookPath|..])
  {
    var url := baseUrl + WebhookPath + NatToString(id);
    assert url[..|baseUrl + WebhookPath|] == baseUrl + WebhookPath;
    assert url[|baseUrl + WebhookPath|..] == NatToString(id);
    url
  }

  /** A fresh verify token: 32 characters, each drawn from the alphabet. */
  method GenerateToken() returns (token: string)
    ensures |token| == TokenLength
    ensures forall i | 0 <= i < |token| :: token[i] in TokenAlphabet
  {
    token := "";
    while |token| < TokenLength
      invariant |token| <= TokenLength
      invariant forall i | 0 <= i < |token| :: token[i] in TokenAlphabet
    {
      assert |TokenAlphabet| == 94;
      var k :| 0 <= k < |TokenAlphabet|;
      token := token + [TokenAlphabet[k]];
    }
  }

  class ProviderConfig {
    const id: nat
    var state: ConfigState
    var webhookToken: string
    var operators: set<nat>

    /** A new provider starts in draft with a generated token and no operators. */
    constructor (id: nat)
      ensures this.id == id && state == Draft && operators == {}
      ensures |webhookToken| == TokenLength
      ensures forall i | 0 <= i < |webhookToken| :: webhookToken[i] in TokenAlphabet
    {
      var token := GenerateToken();
      this.id := id;
      state := Draft;
      operators := {};
      webhookToken := token;
    }

    method RegenerateToken()
      modifies this`webhookToken
      ensures |webhookToken| == TokenLength
      ensures forall i | 0 <= i < |webhookToken| :: webhookToken[i] in TokenAlphabet
    {
      webhookToken := GenerateToken();
    }

    /**
     * A test call to the phone-number endpoint: only status 200 verifies;
     * any other status, or no response, fails, and the provider is left in
     * the error state the source means to record.
     */
    method Verify(reply: Http.Reply) returns (r: Result<(), ConfigError>)
      modifies this`state
      ensures r.Ok? <==> reply.Response? && reply.status == 200
      ensures state == StateAfterVerify(old(state), reply)
    {
      if reply.Response? && reply.status == 200 {
        state := Verified;
        r := Ok(());
      } else {
        state := VerificationError;
        r := Err(VerificationFailed(reply));
      }
    }

    method ResetToDraft()
      modifies this`state
      ensures state == Draft
    {
      state := Draft;
    }
  }

  /**
   * The state a verification leaves, as the source writes it: the "error"
   * state is written and then a `UserError` is raised, which rolls the
   * write back, so a failed verification leaves the state as it was.
   */
  function StateAfterVerifyAsWritten(state: ConfigState, reply: Http.Reply): (r: ConfigState)
    ensures r == Verified <==> (reply.Response? && reply.status == 200) || state == Verified
    ensures !(reply.Response? && reply.status == 200) ==> r == state
  {
    if reply.Response? && reply.status == 200 then Verified else state
  }

  /** The state a verification is meant to leave: verified on 200, in error otherwise. */
  function StateAfterVerify(state: ConfigState, reply: Http.Reply): (r: ConfigState)
    ensures r == Verified <==> reply.Response? && reply.status == 200
    ensures r == VerificationError <==> !(reply.Response? && reply.status == 200)
  {
    if reply.Response? && reply.status == 200 then Verified else VerificationError
  }

  /**
   * A draft provider whose verification gets a 401 stays in draft as
   * written, where the error state was meant.
   */
  lemma FailedVerifyLeavesDraft()
    ensures StateAfterVerifyAsWritten(Draft, Http.Response(401, None)) == Draft
    ensures StateAfterVerify(Draft, Http.Response(401, None)) == VerificationError
  {
  }

  /**
   * The operators of one provider after a user's provider choices change:
   * the user joins every allowed provider and the default one, and then, when
   * the allowed set is not empty, leaves every provider outside it, the
   * default included. Nobody else's membership changes.
   */
  function OperatorsAfter(ops: set<nat>, user: nat, isAllowed: bool, isDefault: bool, restricted: bool): (r: set<nat>)
    ensures user in r <==> (isAllowed || (!restricted && (isDefault || user in ops)))
    ensures r - {user} == ops - {user}
  {
    var added := if isAllowed || isDefault then ops + {user} else ops;
    if restricted && !isAllowed then added - {user} else added
  }

  /**
   * The user form's provider onchange, for one user over the provider table
   * `all`.
   */
  method OnChangeProviders(user: nat, all: set<ProviderConfig>, allowed: set<ProviderConfig>, default: ProviderConfig?)
    requires allowed <= all
    requires default != null ==> default in all
    modifies all
    ensures forall c | c in all ::
      c.operators == OperatorsAfter(old(c.operators), user, c in allowed, c == default, allowed != {})
    ensures forall c | c in all :: c.state == old(c.state) && c.webhookToken == old(c.webhookToken)
  {
    GrantOperator(user, all, allowed, default);
    label granted:
    if allowed != {} {
      RevokeOutside(user, all, allowed);
      forall c | c in all
        ensures c.operators == OperatorsAfter(old(c.operators), user, c in allowed, c == default, true)
      {
        assert old@granted(c.operators) == (if c in allowed || c == default then old(c.operators) + {user} else old(c.operators));
        SameApartFrom(c.operators, OperatorsAfter(old(c.operators), user, c in allowed, c == default, true), user);
      }
    }
  }

  /** The first half of the onchange: the user joins every allowed provider and the default one. */
  method GrantOperator(user: nat, all: set<ProviderConfig>, allowed: set<ProviderConfig>, default: ProviderConfig?)
    requires allowed <= all
    requires default != null ==> default in all
    modifies all
    ensures forall c | c in all ::
      c.operators == (if c in allowed || c == default then old(c.operators) + {user} else old(c.operators))
    ensures forall c | c in all :: c.state == old(c.state) && c.webhookToken == old(c.webhookToken)
  {
    var todo := allowed;
    while todo != {}
      invariant todo <= allowed
      invariant forall c | c in all ::
        c.operators == (if c in allowed - todo then old(c.operators) + {user} else old(c.operators))
      invariant forall c | c in all :: c.state == old(c.state) && c.webhookToken == old(c.webhookToken)
      decreases todo
    {
      var c :| c in todo;
      if user !in c.operators {
        c.operators := c.operators + {user};
      }
      todo := todo - {c};
    }
    if default != null && user !in default.operators {
      default.operators := default.operators + {user};
    }
  }

  /** The second half: the user leaves every provider outside the allowed ones that lists them. */
  method RevokeOutside(user: nat, all: set<ProviderConfig>, allowed: set<ProviderConfig>)
    modifies all
    ensures forall c | c in all :: c.operators == (if c in allowed then old(c.operators) else old(c.operators) - {user})
    ensures forall c | c in all :: c.state == old(c.state) && c.webhookToken == old(c.webhookToken)
  {
    var toRemove := set c | c in all && user in c.operators && c !in allowed;
    while toRemove != {}
      invariant toRemove <= all
      invariant forall c | c in toRemove :: c !in allowed && c.operators == old(c.operators)
      invariant forall c | c in all ::
        c.operators == (if c in allowed || c in toRemove then old(c.operators) else old(c.operators) - {user})
      invariant forall c | c in all :: c.state == old(c.state) && c.webhookToken == old(c.webhookToken)
      decreases toRemove
    {
      var c :| c in toRemove;
      c.operators := c.operators - {user};
      toRemove := toRemove - {c};
    }
  }

  lemma SameApartFrom(a: set<nat>, b: set<nat>, x: nat)
    requires a - {x} == b - {x} && (x in a <==> x in b)
    ensures a == b
  {
    forall y | y in a ensures y in b {
      if y != x { assert y in a - {x}; }
    }
    forall y | y in b ensures y in a {
      if y != x { assert y in b - {x}; }
    }
  }
}
