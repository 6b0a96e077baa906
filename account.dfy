/**
 * An AWS account as the collector holds it: keys, a lazily built
 * session-credentials object, and the account id, which can be looked up
 * through IAM and, when IAM refuses, cut out of the ARN quoted in the
 * AccessDenied message.
 */
module Accounts {
  import opened Wrappers
  import opened JavaStrings

  /** `BasicSessionCredentials` (and any other `AWSCredentials` handed in). */
  class Credentials {
    const accessKeyId: Option<string>
    const secretKey: Option<string>
    const sessionToken: Option<string>

    constructor (accessKeyId: Option<string>, secretKey: Option<string>, sessionToken: Option<string>)
      ensures this.accessKeyId == accessKeyId && this.secretKey == secretKey && this.sessionToken == sessionToken
    {
      this.accessKeyId := accessKeyId;
      this.secretKey := secretKey;
      this.sessionToken := sessionToken;
    }
  }

  /** Where the ARN starts in the message, and the offset and length of the id inside it. */
  const ArnMarker: string := "arn:aws"
  const IdOffset: nat := 13
  const IdLength: nat := 12

  /** What the AccessDenied branch makes of the message. */
  datatype ArnSlice =
    | NoArn          // no "arn:aws": the id stays `null`
    | SliceError     // a `substring` bound is out of range: `StringIndexOutOfBoundsException`
    | Id(id: string) // the 12 characters after "arn:aws:iam::" (or "arn:aws:sts::")

  /**
   * `msg.substring(arnIdx, msg.indexOf(" ", arnIdx)).substring(13, 25)`
   * where `arnIdx` is the first "arn:aws".
   */
  function SliceArn(msg: string): (r: ArnSlice)
    ensures r.NoArn? <==> !Contains(msg, ArnMarker)
    ensures r.Id? ==> |r.id| == IdLength
  {
    var arnIdx := IndexOf(msg, ArnMarker, 0);
    if arnIdx == -1 then
      assert forall i: nat | i <= |msg| :: !OccursAt(msg, ArnMarker, i);
      NoArn
    else
      var arnSpace := IndexOf(msg, " ", arnIdx);
      if arnSpace == -1 || arnSpace - arnIdx < IdOffset + IdLength then SliceError
      else Id(msg[arnIdx + IdOffset..arnIdx + IdOffset + IdLength])
  }

  /**
   * The id is cut from the first "arn:aws" token, when that token (up to
   * the next space) is at least 25 characters long; otherwise slicing fails.
   */
  lemma SliceArnSpec(msg: string, i: nat)
    requires OccursAt(msg, ArnMarker, i)
    requires forall k: nat | k < i :: !OccursAt(msg, ArnMarker, k)
    ensures SliceArn(msg).Id? <==>
      (i + IdOffset + IdLength <= |msg|
       && (forall k | i <= k < i + IdOffset + IdLength :: msg[k] != ' ')
       && exists k | i + IdOffset + IdLength <= k < |msg| :: msg[k] == ' ')
    ensures SliceArn(msg).Id? ==> SliceArn(msg).id == msg[i + IdOffset..i + IdOffset + IdLength]
  {
    var arnIdx := IndexOf(msg, ArnMarker, 0);
    assert arnIdx == i;
    var arnSpace := IndexOf(msg, " ", i);
    forall k: nat | i <= k < |msg| ensures OccursAt(msg, " ", k) <==> msg[k] == ' ' {
      assert msg[k..k + 1] == [msg[k]];
    }
    if arnSpace != -1 && arnSpace - i >= IdOffset + IdLength {
      assert msg[arnSpace] == ' ';
    }
  }

  /**
   * A message quoting an ARN "arn:aws" + ":sts::" (or ":iam::") + a 12-character id
   * + the rest of the ARN, followed by a space, yields that id.
   */
  lemma SliceQuotedArn(before: string, service: string, id: string, rest: string, after: string)
    requires 'a' !in before
    requires |service| == 6 && |id| == IdLength
    requires ' ' !in service + id + rest
    ensures SliceArn(before + ArnMarker + service + id + rest + " " + after) == Id(id)
  {
    var msg := before + ArnMarker + service + id + rest + " " + after;
    var i := |before|;
    assert msg[i..i + |ArnMarker|] == ArnMarker;
    forall k: nat | k < i ensures !OccursAt(msg, ArnMarker, k) {
      assert msg[k] == before[k];
    }
    forall k | i <= k < i + IdOffset + IdLength ensures msg[k] != ' ' {
      if k >= i + |ArnMarker| {
        assert msg[k] == (service + id + rest)[k - i - |ArnMarker|];
      }
    }
    var sp := i + |ArnMarker| + |service + id + rest|;
    assert msg[sp] == ' ';
    SliceArnSpec(msg, i);
    assert msg[i + IdOffset..i + IdOffset + IdLength] == id;
  }

  /** The example of an assumed role. */
  lemma SliceAssumedRoleArn()
    ensures SliceArn("User: " + "arn:aws" + ":sts::" + "123456789012" + ":assumed-role/x" + " " + "is not authorized")
         == Id("123456789012")
  {
    SliceQuotedArn("User: ", ":sts::", "123456789012", ":assumed-role/x", "is not authorized");
  }

  /** What the IAM `getUser` call does, as far as `retrieveAccountIdFromAwsAPI` can tell. */
  datatype IamLookup =
    | UserArn(arn: string)                                  // success: the user's ARN
    | ServiceError(errorCode: Option<string>, message: string) // `AmazonServiceException`
    | OtherFailure                                          // any other `Exception`

  /** The id stored by `retrieveAccountIdFromAwsAPI`, or an exception out of its catch clause. */
  datatype Retrieval = Stores(id: Option<string>) | Throws

  function Retrieve(lookup: IamLookup): (r: Retrieval)
    ensures lookup.UserArn? ==> r == Stores(Some(lookup.arn))
    ensures lookup.OtherFailure? ==> r == Stores(Some(""))
    ensures lookup.ServiceError? && lookup.errorCode.Some? && lookup.errorCode.value != "AccessDenied"
      ==> r == Stores(Some(""))
    ensures lookup.ServiceError? && lookup.errorCode == Some("AccessDenied") && SliceArn(lookup.message).Id?
      ==> r == Stores(Some(SliceArn(lookup.message).id))
    ensures r.Stores? ==> r.id.Some?
    ensures r.Throws? <==> (lookup.ServiceError? &&
      (lookup.errorCode.None? || (lookup.errorCode == Some("AccessDenied") && !SliceArn(lookup.message).Id?)))
  {
    match lookup
    case UserArn(arn) => Stores(Some(arn))
    case OtherFailure => Stores(Some(""))
    case ServiceError(code, msg) =>
      if code.None? then Throws // `getErrorCode().compareTo` on `null`
      else
        CompareZeroIffEqual(code.value, "AccessDenied");
        if Compare(code.value, "AccessDenied") != 0 then Stores(Some(""))
        else match SliceArn(msg)
          case NoArn => Throws // `accountId.length()` on `null`
          case SliceError => Throws
          case Id(id) => Stores(Some(id))
  }

  /** `AwsAccount`; every field is a `null`-able reference. */
  class AwsAccount {
    var accessKeyId: Option<string>
    var accountId: Option<string>
    var credentials: Credentials?
    var secretKey: Option<string>
    var sessionToken: Option<string>

    /** `AwsAccount()`: every field `null`. */
    constructor ()
      ensures accessKeyId.None? && accountId.None? && credentials == null
      ensures secretKey.None? && sessionToken.None?
    {
      accessKeyId, accountId, credentials, secretKey, sessionToken := None, None, null, None, None;
    }

    /**
     * `AwsAccount(accountId, credentials)` (and `AwsAccount(credentials)`,
     * which passes ""): the id argument is never stored.
     */
    constructor FromCredentials(id: Option<string>, c: Credentials)
      ensures credentials == c && accessKeyId == c.accessKeyId && secretKey == c.secretKey
      ensures accountId.None? && sessionToken.None?
    {
      credentials := c;
      accessKeyId := c.accessKeyId;
      secretKey := c.secretKey;
      accountId, sessionToken := None, None;
    }

    /** `AwsAccount(accountId, accessKeyId, secretKey, sessionToken)`. */
    constructor FromKeys(id: Option<string>, key: Option<string>, secret: Option<string>, token: Option<string>)
      ensures accountId == id && accessKeyId == key && secretKey == secret && sessionToken == token
      ensures credentials == null
    {
      accountId, accessKeyId, secretKey, sessionToken := id, key, secret, token;
      credentials := null;
    }

    /** `getCredentials`: built from the key fields on the first call, the same object afterwards. */
    method GetCredentials() returns (c: Credentials)
      modifies this
      ensures old(credentials) != null ==> c == old(credentials)
      ensures old(credentials) == null ==>
        fresh(c) && c.accessKeyId == accessKeyId && c.secretKey == secretKey && c.sessionToken == sessionToken
      ensures credentials == c
      ensures accessKeyId == old(accessKeyId) && accountId == old(accountId)
      ensures secretKey == old(secretKey) && sessionToken == old(sessionToken)
    {
      if credentials == null {
        credentials := new Credentials(accessKeyId, secretKey, sessionToken);
      }
      c := credentials;
    }

    /**
     * `retrieveAccountIdFromAwsAPI`, with the outcome of the IAM call as
     * input. The credentials are built first; `thrown` reports an exception
     * raised inside the `AmazonServiceException` handler, which leaves the
     * stored id as it was.
     */
    method RetrieveAccountId(lookup: IamLookup) returns (thrown: bool)
      modifies this
      ensures thrown <==> Retrieve(lookup).Throws?
      ensures !thrown ==> accountId == Retrieve(lookup).id
      ensures thrown ==> accountId == old(accountId)
      ensures credentials != null && (old(credentials) != null ==> credentials == old(credentials))
      ensures accessKeyId == old(accessKeyId) && secretKey == old(secretKey) && sessionToken == old(sessionToken)
    {
      var c := GetCredentials();
      var outcome := Retrieve(lookup);
      if outcome.Throws? {
        return true;
      }
      SetAccountId(outcome.id);
      thrown := false;
    }

    method SetAccessKeyId(v: Option<string>)
      modifies this
      ensures accessKeyId == v
      ensures accountId == old(accountId) && credentials == old(credentials)
      ensures secretKey == old(secretKey) && sessionToken == old(sessionToken)
    {
      accessKeyId := v;
    }

    method SetAccountId(v: Option<string>)
      modifies this
      ensures accountId == v
      ensures accessKeyId == old(accessKeyId) && credentials == old(credentials)
      ensures secretKey == old(secretKey) && sessionToken == old(sessionToken)
    {
      accountId := v;
    }

    method SetSecretKey(v: Option<string>)
      modifies this
      ensures secretKey == v
      ensures accessKeyId == old(accessKeyId) && accountId == old(accountId)
      ensures credentials == old(credentials) && sessionToken == old(sessionToken)
    {
      secretKey := v;
    }

    method SetSessionToken(v: Option<string>)
      modifies this
      ensures sessionToken == v
      ensures accessKeyId == old(accessKeyId) && accountId == old(accountId)
      ensures credentials == old(credentials) && secretKey == old(secretKey)
    {
      sessionToken := v;
    }

    /** `toString`. */
    function ToString(): (r: string)
      reads this
      ensures accountId.Some? ==> r == "accountId=" + accountId.value
      ensures accountId.None? ==> r == "accountId=null"
    {
      "accountId=" + accountId.GetOr("null")
    }
  }
}
