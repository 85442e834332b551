/** `CredentialsService`: the process-wide holder of the OpenAI key, the
    Pinecone key and the Pinecone index name. The holder starts with all three
    unset; `setCredentials` replaces the whole record; each getter fails with
    its own message while its value is unset or empty. */
module Credentials {

  import opened Wrappers

  /** The stored record; `None` is JavaScript `null`. */
  datatype Record = Record(openaiApiKey: Option<string>, pineconeApiKey: Option<string>, pineconeIndexName: Option<string>)

  const Unset := Record(None, None, None)

  const OpenAIKeyMissing := "OpenAI API key not set"
  const PineconeKeyMissing := "Pinecone API key not set"
  const IndexNameMissing := "Pinecone index name not set"

  /** JavaScript truthiness of a stored value: present and not empty. */
  predicate IsSet(v: Option<string>)
  {
    v.Some? && v.value != ""
  }

  class CredentialsService {
    var credentials: Record

    /** The private constructor: nothing is set yet. */
    constructor ()
      ensures credentials == Unset
    {
      credentials := Unset;
    }

    /** Replaces all three values at once. */
    method SetCredentials(c: Record)
      modifies this
      ensures credentials == c
    {
      credentials := c;
    }

    method GetOpenAIKey() returns (r: Result<string>)
      ensures r.Ok? <==> IsSet(credentials.openaiApiKey)
      ensures r.Ok? ==> r.value == credentials.openaiApiKey.value
      ensures r.Err? ==> r.message == OpenAIKeyMissing
    {
      if !IsSet(credentials.openaiApiKey) {
        return Err(OpenAIKeyMissing);
      }
      return Ok(credentials.openaiApiKey.value);
    }

    method GetPineconeKey() returns (r: Result<string>)
      ensures r.Ok? <==> IsSet(credentials.pineconeApiKey)
      ensures r.Ok? ==> r.value == credentials.pineconeApiKey.value
      ensures r.Err? ==> r.message == PineconeKeyMissing
    {
      if !IsSet(credentials.pineconeApiKey) {
        return Err(PineconeKeyMissing);
      }
      return Ok(credentials.pineconeApiKey.value);
    }

    method GetPineconeIndexName() returns (r: Result<string>)
      ensures r.Ok? <==> IsSet(credentials.pineconeIndexName)
      ensures r.Ok? ==> r.value == credentials.pineconeIndexName.value
      ensures r.Err? ==> r.message == IndexNameMissing
    {
      if !IsSet(credentials.pineconeIndexName) {
        return Err(IndexNameMissing);
      }
      return Ok(credentials.pineconeIndexName.value);
    }
  }

  /** The class's static `instance` slot. */
  class Registry {
    var instance: CredentialsService?

    constructor ()
      ensures instance == null
    {
      instance := null;
    }

    /** `getInstance`: creates the holder on first use and hands out that
        same object ever after. */
    method GetInstance() returns (s: CredentialsService)
      modifies this
      ensures old(instance) != null ==> s == old(instance) && unchanged(s)
      ensures old(instance) == null ==> fresh(s) && s.credentials == Unset
      ensures instance == s
    {
      if instance == null {
        instance := new CredentialsService();
      }
      s := instance;
    }
  }

  /** Two calls of `getInstance` give the same object, and what was set
      through the first is what the second sees. */
  method SingletonIsShared(registry: Registry, c: Record) returns (first: CredentialsService, second: CredentialsService)
    modifies registry, registry.instance
    ensures first == second
    ensures second.credentials == c
  {
    first := registry.GetInstance();
    first.SetCredentials(c);
    second := registry.GetInstance();
  }

  /** A fresh holder fails every getter with its own message. */
  method FreshHolderFails() returns (openai: Result<string>, pinecone: Result<string>, index: Result<string>)
    ensures openai == Err(OpenAIKeyMissing) && pinecone == Err(PineconeKeyMissing) && index == Err(IndexNameMissing)
  {
    var holder := new CredentialsService();
    openai := holder.GetOpenAIKey();
    pinecone := holder.GetPineconeKey();
    index := holder.GetPineconeIndexName();
  }

  /** After setting three non-empty values, each getter returns exactly its
      value, and reading leaves the record as it was. */
  method SetThenGet(holder: CredentialsService, openaiKey: string, pineconeKey: string, indexName: string)
    returns (openai: Result<string>, pinecone: Result<string>, index: Result<string>)
    requires openaiKey != "" && pineconeKey != "" && indexName != ""
    modifies holder
    ensures openai == Ok(openaiKey) && pinecone == Ok(pineconeKey) && index == Ok(indexName)
    ensures holder.credentials == Record(Some(openaiKey), Some(pineconeKey), Some(indexName))
  {
    holder.SetCredentials(Record(Some(openaiKey), Some(pineconeKey), Some(indexName)));
    openai := holder.GetOpenAIKey();
    pinecone := holder.GetPineconeKey();
    index := holder.GetPineconeIndexName();
  }
}
