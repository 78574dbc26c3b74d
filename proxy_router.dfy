/** Choosing the provider client for a requested model (`get_client`) and the
    model catalogue that follows from which clients exist (`list_models`). */
module ProxyRouter {
  import opened PyText
  import opened ProxyConfig
  import opened Http

  const NoProvidersDetail: string := "No configured AI providers"

  /** `get_client`: the first matching rule wins. */
  function GetClient(model: string, p: Providers): (r: Result<Client, HttpException>)
    ensures r.Err? <==> p.openai.None? && p.azure.None?
    ensures r.Err? ==> r.error == HttpException(400, NoProvidersDetail)
    ensures r.Ok? ==> Some(r.value) == p.openai || Some(r.value) == p.azure
  {
    if StartsWith(model, "gpt-") && p.openai.Some? then Ok(p.openai.value)
    else if (StartsWith(model, "azure-") || Contains(model, "gpt")) && p.azure.Some? then Ok(p.azure.value)
    else if p.azure.Some? then Ok(p.azure.value)      // default to Azure when available
    else if p.openai.Some? then Ok(p.openai.value)    // then to OpenAI
    else Err(HttpException(400, NoProvidersDetail))
  }

  /** A "gpt-" model goes to the OpenAI client whenever there is one, whatever
      else is registered. */
  lemma RouteGptPrefixToOpenAI(model: string, p: Providers)
    requires p.openai.Some? && StartsWith(model, "gpt-")
    ensures GetClient(model, p) == Ok(p.openai.value)
  {
  }

  /** Failing the first rule, an "azure-" model or any model containing "gpt"
      goes to the Azure client when there is one. */
  lemma RouteAzureNamingToAzure(model: string, p: Providers)
    requires p.azure.Some? && (StartsWith(model, "azure-") || Contains(model, "gpt"))
    requires !(p.openai.Some? && StartsWith(model, "gpt-"))
    ensures GetClient(model, p) == Ok(p.azure.value)
  {
  }

  /** Fallbacks: Azure when present, else OpenAI when present, else the 400. */
  lemma RouteFallbacks(model: string, p: Providers)
    requires !(p.openai.Some? && StartsWith(model, "gpt-"))
    ensures p.azure.Some? ==> GetClient(model, p) == Ok(p.azure.value)
    ensures p.azure.None? && p.openai.Some? ==> GetClient(model, p) == Ok(p.openai.value)
    ensures p.azure.None? && p.openai.None? ==> GetClient(model, p) == Err(HttpException(400, NoProvidersDetail))
  {
  }

  /** The naming test of the second rule never changes the outcome: once the
      first rule does not apply, every model name is routed alike. */
  lemma AzureNamingTestIsUnobservable(m1: string, m2: string, p: Providers)
    requires !(p.openai.Some? && StartsWith(m1, "gpt-"))
    requires !(p.openai.Some? && StartsWith(m2, "gpt-"))
    ensures GetClient(m1, p) == GetClient(m2, p)
  {
  }

  /** Which of the two registry slots a routing decision picked. */
  datatype Slot = OpenAISlot | AzureSlot

  function Pick(p: Providers, s: Slot): Option<Client> {
    match s
    case OpenAISlot => p.openai
    case AzureSlot => p.azure
  }

  /** The routing decision depends only on the model name and on which of the
      two clients are present, not on the clients themselves. */
  lemma {:induction false} RouteDependsOnlyOnPresence(model: string, p1: Providers, p2: Providers)
    requires p1.openai.Some? == p2.openai.Some? && p1.azure.Some? == p2.azure.Some?
    ensures GetClient(model, p1).Ok? == GetClient(model, p2).Ok?
    ensures GetClient(model, p1).Err? ==> GetClient(model, p1) == GetClient(model, p2)
    ensures GetClient(model, p1).Ok? ==> exists s: Slot ::
      Pick(p1, s) == Some(GetClient(model, p1).value) && Pick(p2, s) == Some(GetClient(model, p2).value)
  {
    if GetClient(model, p1).Ok? {
      var s := if StartsWith(model, "gpt-") && p1.openai.Some? then OpenAISlot
        else if p1.azure.Some? then AzureSlot else OpenAISlot;
      assert Pick(p1, s) == Some(GetClient(model, p1).value);
    }
  }

  /** One entry of the `/models` listing (its `object` field is always "model"). */
  datatype ModelEntry = ModelEntry(id: string, ownedBy: string)

  const OpenAIModels: seq<ModelEntry> := [
    ModelEntry("gpt-4o", "openai"),
    ModelEntry("gpt-4o-mini", "openai"),
    ModelEntry("gpt-4-turbo", "openai")]

  const AzureModels: seq<ModelEntry> := [
    ModelEntry("azure-gpt-4", "azure"),
    ModelEntry("azure-gpt-4-turbo", "azure"),
    ModelEntry("azure-gpt-35-turbo", "azure")]

  /** The client an entry's owner names. */
  function OwnerClient(p: Providers, e: ModelEntry): Option<Client> {
    if e.ownedBy == "openai" then p.openai else p.azure
  }

  /** `list_models`: the OpenAI ids when the OpenAI client exists, followed by
      the Azure ids when the Azure client exists; every listed id is routed by
      `get_client` to the client of the provider that owns it. */
  method ListModels(p: Providers) returns (models: seq<ModelEntry>)
    ensures models == (if p.openai.Some? then OpenAIModels else []) + (if p.azure.Some? then AzureModels else [])
    ensures models == [] <==> p.openai.None? && p.azure.None?
    ensures forall i :: 0 <= i < |models| ==>
      OwnerClient(p, models[i]).Some? && GetClient(models[i].id, p) == Ok(OwnerClient(p, models[i]).value)
  {
    models := [];
    if p.openai.Some? {
      models := models + OpenAIModels;
    }
    if p.azure.Some? {
      models := models + AzureModels;
    }
    forall i | 0 <= i < |models|
      ensures OwnerClient(p, models[i]).Some? && GetClient(models[i].id, p) == Ok(OwnerClient(p, models[i]).value)
    {
      var e := models[i];
      if e.ownedBy == "openai" {
        assert e in OpenAIModels;
        assert StartsWith(e.id, "gpt-");
      } else {
        assert e in AzureModels;
        assert e.id[..4] == "azur" by {
          assert e == AzureModels[0] || e == AzureModels[1] || e == AzureModels[2];
        }
        assert !StartsWith(e.id, "gpt-");
      }
    }
  }
}
