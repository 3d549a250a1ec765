/** The reference models of kong_admin/models.py: local records of the routes
    (APIs), consumers and consumer credentials that are kept in step with a
    Kong gateway. What is modelled is the behaviour the classes themselves
    define: `clean()`, which normalises blank optional fields and then checks
    that the record is consistent, and `__str__`, which renders the record for
    display. */
module Models {
  import opened Python

  /** The remote identifier Kong assigns on creation (a UUID). A UUID object is
      always truthy, so only its presence matters. */
  type Uuid = bv128

  /** The time of the last synchronisation (a datetime, always truthy). */
  type Timestamp = int

  /** The `ValidationError`s that `clean()` raises. */
  datatype ValidationError =
    | HostOrPathRequired
    | KongIdRequired
    | SynchronizedAtRequired
    | UsernameOrCustomIdRequired

  /** The message each error carries. */
  function Message(e: ValidationError): string {
    match e
    case HostOrPathRequired => "At least one of the parameters \"request_host\" and \"request_path\" should be set"
    case KongIdRequired => "There should be an kong_id parameter"
    case SynchronizedAtRequired => "There should be a synchronized_at parameter"
    case UsernameOrCustomIdRequired => "At least one of the parameters \"username\" and \"custom_id\" should be set"
  }

  /** Each error carries its own message, so a caller that sees only the
      message can tell which check failed. */
  lemma MessagesDistinct(e1: ValidationError, e2: ValidationError)
    ensures Message(e1) == Message(e2) <==> e1 == e2
  {
  }

  /** How a call of `clean()` ends: it returns, or it raises. */
  datatype Outcome = Cleaned | Raised(error: ValidationError)

  /** The consistency checks of `APIReference.clean`, in the order the Python
      class makes them, on the already-normalised host and path. */
  function ApiCheck(requestHost: Option<string>, requestPath: Option<string>,
                    kongId: Option<Uuid>, synchronizedAt: Option<Timestamp>): (r: Outcome)
    ensures r == Cleaned <==>
              (Truthy(requestHost) || Truthy(requestPath)) && (kongId.Some? <==> synchronizedAt.Some?)
    ensures !Truthy(requestHost) && !Truthy(requestPath) ==> r == Raised(HostOrPathRequired)
    ensures r == Raised(KongIdRequired) <==>
              (Truthy(requestHost) || Truthy(requestPath)) && synchronizedAt.Some? && kongId.None?
    ensures r == Raised(SynchronizedAtRequired) <==>
              (Truthy(requestHost) || Truthy(requestPath)) && kongId.Some? && synchronizedAt.None?
  {
    if !Truthy(requestHost) && !Truthy(requestPath) then Raised(HostOrPathRequired)
    else if synchronizedAt.Some? && kongId.None? then Raised(KongIdRequired)
    else if kongId.Some? && synchronizedAt.None? then Raised(SynchronizedAtRequired)
    else Cleaned
  }

  /** The consistency check of `ConsumerReference.clean`. */
  function ConsumerCheck(username: Option<string>, customId: Option<string>): (r: Outcome)
    ensures r == Cleaned <==> Truthy(username) || Truthy(customId)
    ensures r != Cleaned ==> r == Raised(UsernameOrCustomIdRequired)
  {
    if !Truthy(username) && !Truthy(customId) then Raised(UsernameOrCustomIdRequired)
    else Cleaned
  }

  /** The key as `KeyAuthReference.__str__` shows it: unchanged up to 16
      characters, otherwise its first 16 characters followed by "...". */
  function ShownKey(key: string): (r: string)
    ensures |key| <= 16 ==> r == key
    ensures |key| > 16 ==> |r| == 19 && r[..16] == key[..16] && r[16..] == "..."
    ensures |r| <= 19
  {
    if |key| > 16 then
      FormatOne("", "...", key[..16]);
      assert "" + "%s" + "..." == "%s...";
      Format("%s...", [key[..16]]).value
    else key
  }

  /** A route registered with Kong (`APIReference`, with the fields it inherits
      from `KongProxyModel`). */
  class APIReference {
    var kongId: Option<Uuid>
    var synchronized: bool
    var synchronizedAt: Option<Timestamp>
    var upstreamUrl: string
    var name: Option<string>
    var requestHost: Option<string>
    var requestPath: Option<string>
    var preserveHost: bool
    var stripRequestPath: bool
    var enabled: bool

    /** A new, never synchronised record, with the field defaults of the Python class. */
    constructor (upstreamUrl: string)
      ensures this.upstreamUrl == upstreamUrl
      ensures name == None && requestHost == None && requestPath == None
      ensures !preserveHost && !stripRequestPath && enabled
      ensures kongId == None && !synchronized && synchronizedAt == None
    {
      this.upstreamUrl := upstreamUrl;
      name, requestHost, requestPath := None, None, None;
      preserveHost, stripRequestPath, enabled := false, false, true;
      kongId, synchronized, synchronizedAt := None, false, None;
    }

    /** `__str__`: the upstream URL alone when the record has no name,
        otherwise "name (upstream_url)". */
    function Str(): (r: string)
      reads this
      ensures !Truthy(name) ==> r == upstreamUrl
      ensures Truthy(name) ==> r == name.value + " (" + upstreamUrl + ")"
    {
      if !Truthy(name) then upstreamUrl
      else
        FormatTwo("", " (", ")", name.value, upstreamUrl);
        assert "" + "%s" + " (" + "%s" + ")" == "%s (%s)";
        Format("%s (%s)", [name.value, upstreamUrl]).value
    }

    /** `clean()`: stores None instead of blank name, host and path (also when
        it then raises), then requires a host or a path and requires the
        remote identifier and the synchronisation time to come together. */
    method Clean() returns (outcome: Outcome)
      modifies this
      ensures name == OrNone(old(name))
      ensures requestHost == OrNone(old(requestHost))
      ensures requestPath == OrNone(old(requestPath))
      ensures upstreamUrl == old(upstreamUrl) && preserveHost == old(preserveHost)
      ensures stripRequestPath == old(stripRequestPath) && enabled == old(enabled)
      ensures kongId == old(kongId) && synchronized == old(synchronized)
      ensures synchronizedAt == old(synchronizedAt)
      // no blank string survives, whatever the outcome
      ensures name != Some("") && requestHost != Some("") && requestPath != Some("")
      // cleaning again changes nothing
      ensures OrNone(name) == name && OrNone(requestHost) == requestHost && OrNone(requestPath) == requestPath
      ensures outcome == ApiCheck(requestHost, requestPath, kongId, synchronizedAt)
      ensures outcome == Cleaned ==> (kongId.Some? <==> synchronizedAt.Some?)
      ensures !Truthy(old(requestHost)) && !Truthy(old(requestPath)) ==> outcome == Raised(HostOrPathRequired)
    {
      name := OrNone(name);
      requestHost := OrNone(requestHost);
      requestPath := OrNone(requestPath);

      if !Truthy(requestHost) && !Truthy(requestPath) {
        return Raised(HostOrPathRequired);
      }
      if synchronizedAt.Some? && kongId.None? {
        return Raised(KongIdRequired);
      }
      if kongId.Some? && synchronizedAt.None? {
        return Raised(SynchronizedAtRequired);
      }
      return Cleaned;
    }
  }

  /** Calling `APIReference.clean` a second time leaves the record as the first
      call left it and ends the same way. */
  method ApiCleanTwice(r: APIReference) returns (first: Outcome, second: Outcome)
    modifies r
    ensures second == first
    ensures r.name == OrNone(old(r.name)) && r.requestHost == OrNone(old(r.requestHost))
    ensures r.requestPath == OrNone(old(r.requestPath))
    ensures r.kongId == old(r.kongId) && r.synchronizedAt == old(r.synchronizedAt)
    ensures r.upstreamUrl == old(r.upstreamUrl) && r.preserveHost == old(r.preserveHost)
    ensures r.stripRequestPath == old(r.stripRequestPath) && r.enabled == old(r.enabled)
    ensures r.synchronized == old(r.synchronized)
  {
    first := r.Clean();
    second := r.Clean();
  }

  /** A consumer of the gateway's routes (`ConsumerReference`). */
  class ConsumerReference {
    var kongId: Option<Uuid>
    var synchronized: bool
    var synchronizedAt: Option<Timestamp>
    var username: Option<string>
    var customId: Option<string>
    var enabled: bool

    /** A new, never synchronised record. */
    constructor (username: Option<string>, customId: Option<string>)
      ensures this.username == username && this.customId == customId && enabled
      ensures kongId == None && !synchronized && synchronizedAt == None
    {
      this.username, this.customId, enabled := username, customId, true;
      kongId, synchronized, synchronizedAt := None, false, None;
    }

    /** `__str__`: `username or custom_id`. None means that `__str__` returns
        None, so that `str()` of the record raises. */
    function Str(): (r: Option<string>)
      reads this
      ensures Truthy(username) ==> r == username
      ensures !Truthy(username) ==> r == customId
      ensures Truthy(r) <==> Truthy(username) || Truthy(customId)
    {
      if Truthy(username) then username else customId
    }

    /** `clean()`: stores None instead of a blank username or custom id (also
        when it then raises), then requires one of the two. */
    method Clean() returns (outcome: Outcome)
      modifies this
      ensures username == OrNone(old(username)) && customId == OrNone(old(customId))
      ensures enabled == old(enabled) && kongId == old(kongId)
      ensures synchronized == old(synchronized) && synchronizedAt == old(synchronizedAt)
      ensures username != Some("") && customId != Some("")
      ensures OrNone(username) == username && OrNone(customId) == customId
      ensures outcome == ConsumerCheck(username, customId)
      ensures outcome == Raised(UsernameOrCustomIdRequired) <==> !Truthy(old(username)) && !Truthy(old(customId))
      // a record that passes can always be displayed, as a non-empty string
      ensures outcome == Cleaned ==> Str().Some? && Str().value != ""
    {
      username := OrNone(username);
      customId := OrNone(customId);

      if !Truthy(username) && !Truthy(customId) {
        return Raised(UsernameOrCustomIdRequired);
      }
      return Cleaned;
    }
  }

  /** Calling `ConsumerReference.clean` a second time leaves the record as the
      first call left it and ends the same way. */
  method ConsumerCleanTwice(r: ConsumerReference) returns (first: Outcome, second: Outcome)
    modifies r
    ensures second == first
    ensures r.username == OrNone(old(r.username)) && r.customId == OrNone(old(r.customId))
    ensures r.enabled == old(r.enabled) && r.kongId == old(r.kongId)
    ensures r.synchronized == old(r.synchronized) && r.synchronizedAt == old(r.synchronizedAt)
  {
    first := r.Clean();
    second := r.Clean();
  }

  /** HTTP basic authentication credentials of a consumer (`BasicAuthReference`). */
  class BasicAuthReference {
    var consumer: ConsumerReference
    var username: string
    var password: string

    constructor (consumer: ConsumerReference, username: string, password: string)
      ensures this.consumer == consumer && this.username == username && this.password == password
    {
      this.consumer, this.username, this.password := consumer, username, password;
    }

    /** `__str__`: names the consumer and the username; it raises (None) when
        the consumer cannot be displayed. */
    function Str(): (r: Option<string>)
      reads this, consumer
      ensures r.Some? <==> consumer.Str().Some?
      ensures r.Some? ==>
                r.value == "BasicAuthReference(consumer: " + consumer.Str().value + ", username: " + username + ")"
    {
      match consumer.Str()
      case None => None
      case Some(c) =>
        FormatTwo("BasicAuthReference(consumer: ", ", username: ", ")", c, username);
        assert "BasicAuthReference(consumer: " + "%s" + ", username: " + "%s" + ")"
            == "BasicAuthReference(consumer: %s, username: %s)";
        Some(Format("BasicAuthReference(consumer: %s, username: %s)", [c, username]).value)
    }
  }

  /** An API key of a consumer (`KeyAuthReference`). */
  class KeyAuthReference {
    var consumer: ConsumerReference
    var key: string

    constructor (consumer: ConsumerReference, key: string)
      ensures this.consumer == consumer && this.key == key
    {
      this.consumer, this.key := consumer, key;
    }

    /** `__str__`: names the consumer and the key, the key cut to its first 16
        characters and "..." when it is longer; it raises (None) when the
        consumer cannot be displayed. */
    function Str(): (r: Option<string>)
      reads this, consumer
      ensures r.Some? <==> consumer.Str().Some?
      ensures r.Some? ==>
                r.value == "KeyAuthReference(consumer: " + consumer.Str().value + ", key: " + ShownKey(key) + ")"
    {
      match consumer.Str()
      case None => None
      case Some(c) =>
        var shown := ShownKey(key);
        FormatTwo("KeyAuthReference(consumer: ", ", key: ", ")", c, shown);
        assert "KeyAuthReference(consumer: " + "%s" + ", key: " + "%s" + ")"
            == "KeyAuthReference(consumer: %s, key: %s)";
        Some(Format("KeyAuthReference(consumer: %s, key: %s)", [c, shown]).value)
    }
  }

  /** An OAuth 2 application of a consumer (`OAuth2Reference`, with the fields
      it inherits from `KongProxyModel`). */
  class OAuth2Reference {
    var kongId: Option<Uuid>
    var synchronized: bool
    var synchronizedAt: Option<Timestamp>
    var consumer: ConsumerReference
    var name: string
    var redirectUri: string
    var clientId: Option<string>
    var clientSecret: Option<string>

    constructor (consumer: ConsumerReference, name: string, redirectUri: string,
                 clientId: Option<string>, clientSecret: Option<string>)
      ensures this.consumer == consumer && this.name == name && this.redirectUri == redirectUri
      ensures this.clientId == clientId && this.clientSecret == clientSecret
      ensures kongId == None && !synchronized && synchronizedAt == None
    {
      this.consumer, this.name, this.redirectUri := consumer, name, redirectUri;
      this.clientId, this.clientSecret := clientId, clientSecret;
      kongId, synchronized, synchronizedAt := None, false, None;
    }

    /** `__str__`: names the application. */
    function Str(): (r: string)
      reads this
      ensures r == "OAuth2Reference(name: " + name + ")"
    {
      FormatOne("OAuth2Reference(name: ", ")", name);
      assert "OAuth2Reference(name: " + "%s" + ")" == "OAuth2Reference(name: %s)";
      Format("OAuth2Reference(name: %s)", [name]).value
    }

    /** `clean()`: stores None instead of a blank client id or secret; it never
        raises. */
    method Clean()
      modifies this
      ensures clientId == OrNone(old(clientId)) && clientSecret == OrNone(old(clientSecret))
      ensures clientId != Some("") && clientSecret != Some("")
      ensures OrNone(clientId) == clientId && OrNone(clientSecret) == clientSecret
      ensures consumer == old(consumer) && name == old(name) && redirectUri == old(redirectUri)
      ensures kongId == old(kongId) && synchronized == old(synchronized)
      ensures synchronizedAt == old(synchronizedAt)
    {
      clientId := OrNone(clientId);
      clientSecret := OrNone(clientSecret);
    }
  }
}
