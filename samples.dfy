/**
 * The usage samples shown under the generated key: four fixed texts with the
 * key (or a placeholder before one exists) and the gateway's base URL
 * interpolated, and the choice of sample by tab index.
 */
module Samples {
  import opened Text

  /** Stands in for the key until one has been generated. */
  const Placeholder: string := "<your-generated-key>"

  /** `generatedKey || '<your-generated-key>'`: the key when there is one, the placeholder otherwise. */
  function KeyOrPlaceholder(generatedKey: string): (k: string)
    ensures k != ""
    ensures generatedKey != "" ==> k == generatedKey
    ensures generatedKey == "" ==> k == Placeholder
  {
    if generatedKey != "" then generatedKey else Placeholder
  }

  /**
   * A sample text with two holes: fixed text before, between and after the
   * key and the base URL, which appear in that order when `keyFirst` holds
   * and in the other order otherwise.
   */
  datatype Template = Template(head: string, mid: string, tail: string, keyFirst: bool)

  /** The sample with the key and the base URL filled in. */
  function Render(t: Template, key: string, baseUrl: string): (s: string)
    ensures |s| == |t.head| + |key| + |t.mid| + |baseUrl| + |t.tail|
    ensures t.head <= s
  {
    if t.keyFirst then t.head + key + t.mid + baseUrl + t.tail
    else t.head + baseUrl + t.mid + key + t.tail
  }

  /** Where the key sits in a rendered sample, given the base URL: the inverse of `Render` in the key. */
  function ExtractKey(t: Template, sample: string, baseUrl: string): string
    requires |t.head| + |t.mid| + |baseUrl| + |t.tail| <= |sample|
  {
    if t.keyFirst then sample[|t.head|..|sample| - |t.tail| - |baseUrl| - |t.mid|]
    else sample[|t.head| + |baseUrl| + |t.mid|..|sample| - |t.tail|]
  }

  /** The key can be read back from a rendered sample: rendering loses nothing of it. */
  lemma RenderRoundTrip(t: Template, key: string, baseUrl: string)
    ensures ExtractKey(t, Render(t, key, baseUrl), baseUrl) == key
  {
  }

  /** The key and the base URL both appear in a rendered sample. */
  lemma RenderEmbeds(t: Template, key: string, baseUrl: string)
    ensures Contains(Render(t, key, baseUrl), key)
    ensures Contains(Render(t, key, baseUrl), baseUrl)
  {
    var s := Render(t, key, baseUrl);
    if t.keyFirst {
      assert s == t.head + key + (t.mid + baseUrl + t.tail);
      InfixOfConcat(t.head, key, t.mid + baseUrl + t.tail);
      assert s == (t.head + key + t.mid) + baseUrl + t.tail;
      InfixOfConcat(t.head + key + t.mid, baseUrl, t.tail);
    } else {
      assert s == t.head + baseUrl + (t.mid + key + t.tail);
      InfixOfConcat(t.head, baseUrl, t.mid + key + t.tail);
      assert s == (t.head + baseUrl + t.mid) + key + t.tail;
      InfixOfConcat(t.head + baseUrl + t.mid, key, t.tail);
    }
  }

  /**
   * When the fixed text around the holes is split as `head == h0 + o1`,
   * `mid == c1 + m0 + o2` and `tail == c2 + t0`, the sample holds `o1 + first + c1`
   * and `o2 + second + c2`, where first and second are the two filled-in values
   * in the template's order.
   */
  lemma RenderArguments(t: Template, key: string, baseUrl: string,
                        h0: string, o1: string, c1: string, m0: string, o2: string, c2: string, t0: string)
    requires t.head == h0 + o1 && t.mid == c1 + m0 + o2 && t.tail == c2 + t0
    ensures var first := if t.keyFirst then key else baseUrl;
            var second := if t.keyFirst then baseUrl else key;
            && Contains(Render(t, key, baseUrl), o1 + first + c1)
            && Contains(Render(t, key, baseUrl), o2 + second + c2)
  {
    var first := if t.keyFirst then key else baseUrl;
    var second := if t.keyFirst then baseUrl else key;
    assert Render(t, key, baseUrl) == t.head + first + t.mid + second + t.tail;
    Reassociate(h0, o1, first, c1, m0, o2, second, c2, t0);
    InfixOfConcat(h0, o1 + first + c1, m0 + o2 + second + c2 + t0);
    InfixOfConcat(h0 + o1 + first + c1 + m0, o2 + second + c2, t0);
  }

  /** Regrouping of the nine pieces of a filled-in sample. */
  lemma Reassociate(h0: string, o1: string, first: string, c1: string, m0: string,
                    o2: string, second: string, c2: string, t0: string)
    ensures var s := (h0 + o1) + first + (c1 + m0 + o2) + second + (c2 + t0);
            && s == h0 + (o1 + first + c1) + (m0 + o2 + second + c2 + t0)
            && s == (h0 + o1 + first + c1 + m0) + (o2 + second + c2) + t0
  {
  }

  // The four samples. Each is the trimmed template text; the pieces next to a
  // hole are kept apart so that the text around the key and the URL is visible.

  const PyOpenAIIntro: string := "import openai\nclient = openai.OpenAI(\n    "
  const PyOpenAIBetween: string := ",  # YOUR_API_KEY\n    "
  const PyOpenAIOutro: string :=
    "  # set openai_api_base to the LiteLLM Proxy\n)\n"
    + "response = client.chat.completions.create(\n"
    + "    model=\"gpt-3.5-turbo\",\n"
    + "    messages=[{\"role\": \"user\", \"content\": \"Hello, what llm are you?\"}]\n"
    + ")\nprint(response)"

  const PythonOpenAI: Template :=
    Template(PyOpenAIIntro + "api_key=\"", "\"" + PyOpenAIBetween + "base_url=\"", "\"" + PyOpenAIOutro, true)

  const PyLangchainIntro: string :=
    "from langchain.chat_models import ChatOpenAI\n"
    + "from langchain.schema import HumanMessage, SystemMessage\n\n"
    + "chat = ChatOpenAI(\n    "
  const PyLangchainBetween: string := ",\n    "
  const PyLangchainOutro: string :=
    ",  # set openai_api_base to the LiteLLM Proxy\n"
    + "    model=\"gpt-3.5-turbo\",\n    temperature=0.1,\n)\n\n"
    + "messages = [\n    SystemMessage(content=\"You are a helpful assistant.\"),\n"
    + "    HumanMessage(content=\"Hello, what llm are you?\")\n]\n"
    + "response = chat(messages)\nprint(response)"

  const PythonLangchain: Template :=
    Template(PyLangchainIntro + "openai_api_key=\"", "\"" + PyLangchainBetween + "openai_api_base=\"",
             "\"" + PyLangchainOutro, true)

  const JsLangchainIntro: string :=
    "import { ChatOpenAI } from \"@langchain/openai\";\n\n"
    + "const chat = new ChatOpenAI({\n  "
  const JsLangchainBetween: string := ",\n  "
  const JsLangchainOutro: string :=
    " }, // set openai_api_base to the LiteLLM Proxy\n"
    + "  model: \"gpt-3.5-turbo\",\n  temperature: 0.1,\n});\n\n"
    + "const messages = [\n  { role: \"system\", content: \"You are a helpful assistant.\" },\n"
    + "  { role: \"user\", content: \"Hello, what llm are you?\" }\n];\n\n"
    + "async function main() {\n  const response = await chat.invoke(messages);\n"
    + "  console.log(response);\n}\nmain();"

  const JsLangchain: Template :=
    Template(JsLangchainIntro + "apiKey: \"", "\"" + JsLangchainBetween + "configuration: { baseURL: \"",
             "\"" + JsLangchainOutro, true)

  const CurlIntro: string := "curl --location "
  const CurlBetween: string :=
    " \\\n--header 'Content-Type: application/json' \\\n--header 'Authorization: "
  const CurlOutro: string :=
    " \\\n--data '{\n  \"model\": \"gpt-3.5-turbo\",\n  \"messages\": [\n"
    + "    { \"role\": \"user\", \"content\": \"Hello, what llm are you?\" }\n  ]\n}'"

  const Curl: Template :=
    Template(CurlIntro + "'", "/chat/completions'" + CurlBetween + "Bearer ", "'" + CurlOutro, false)

  /** The four samples for the current key and base URL. */
  datatype CodeSamples = CodeSamples(pythonOpenAI: string, pythonLangchain: string, jsLangchain: string, curl: string)

  function MakeCodeSamples(generatedKey: string, baseUrl: string): (c: CodeSamples)
    ensures Contains(c.pythonOpenAI, KeyOrPlaceholder(generatedKey)) && Contains(c.pythonOpenAI, baseUrl)
    ensures Contains(c.pythonLangchain, KeyOrPlaceholder(generatedKey)) && Contains(c.pythonLangchain, baseUrl)
    ensures Contains(c.jsLangchain, KeyOrPlaceholder(generatedKey)) && Contains(c.jsLangchain, baseUrl)
    ensures Contains(c.curl, KeyOrPlaceholder(generatedKey)) && Contains(c.curl, baseUrl)
  {
    var key := KeyOrPlaceholder(generatedKey);
    RenderEmbeds(PythonOpenAI, key, baseUrl);
    RenderEmbeds(PythonLangchain, key, baseUrl);
    RenderEmbeds(JsLangchain, key, baseUrl);
    RenderEmbeds(Curl, key, baseUrl);
    CodeSamples(
      Render(PythonOpenAI, key, baseUrl),
      Render(PythonLangchain, key, baseUrl),
      Render(JsLangchain, key, baseUrl),
      Render(Curl, key, baseUrl))
  }

  /** The sample a tab shows: tabs 0, 1 and 2 the Python OpenAI, Python Langchain and JS Langchain samples, any other index cURL. */
  function GetCodeSampleForTab(samples: CodeSamples, index: int): (r: string)
    ensures r == [samples.pythonOpenAI, samples.pythonLangchain, samples.jsLangchain, samples.curl][TabSlot(index)]
  {
    match index
    case 0 => samples.pythonOpenAI
    case 1 => samples.pythonLangchain
    case 2 => samples.jsLangchain
    case _ => samples.curl
  }

  /** The tabs in display order, by template; indexes outside 0 to 2 fall to the last one. */
  function TemplateForTab(index: int): (t: Template)
  {
    [PythonOpenAI, PythonLangchain, JsLangchain, Curl][TabSlot(index)]
  }

  /** The position, in display order, of the sample a tab index selects: the index itself for 0 to 2, the last one otherwise. */
  function TabSlot(index: int): (k: nat)
    ensures k < 4
  {
    if 0 <= index < 3 then index else 3
  }

  /** The sample for any tab is that tab's template filled with the key or the placeholder and the base URL. */
  lemma SampleForTab(generatedKey: string, baseUrl: string, index: int)
    ensures GetCodeSampleForTab(MakeCodeSamples(generatedKey, baseUrl), index)
            == Render(TemplateForTab(index), KeyOrPlaceholder(generatedKey), baseUrl)
  {
    var samples := MakeCodeSamples(generatedKey, baseUrl);
    var key := KeyOrPlaceholder(generatedKey);
    if index == 0 {
      assert TemplateForTab(index) == PythonOpenAI;
      assert GetCodeSampleForTab(samples, index) == samples.pythonOpenAI;
    } else if index == 1 {
      assert TemplateForTab(index) == PythonLangchain;
      assert GetCodeSampleForTab(samples, index) == samples.pythonLangchain;
    } else if index == 2 {
      assert TemplateForTab(index) == JsLangchain;
      assert GetCodeSampleForTab(samples, index) == samples.jsLangchain;
    } else {
      assert TemplateForTab(index) == Curl;
      assert GetCodeSampleForTab(samples, index) == samples.curl;
    }
  }

  /** The Python OpenAI sample passes the key as `api_key="…"` and the URL as `base_url="…"`. */
  lemma PythonOpenAIArguments(key: string, baseUrl: string)
    ensures Contains(Render(PythonOpenAI, key, baseUrl), "api_key=\"" + key + "\"")
    ensures Contains(Render(PythonOpenAI, key, baseUrl), "base_url=\"" + baseUrl + "\"")
  {
    RenderArguments(PythonOpenAI, key, baseUrl,
      PyOpenAIIntro, "api_key=\"", "\"", PyOpenAIBetween, "base_url=\"", "\"", PyOpenAIOutro);
  }

  /** The cURL sample posts to the base URL's `/chat/completions` with the key as bearer credential. */
  lemma CurlTargetsChatCompletions(key: string, baseUrl: string)
    ensures Contains(Render(Curl, key, baseUrl), "'" + baseUrl + "/chat/completions'")
    ensures Contains(Render(Curl, key, baseUrl), "Bearer " + key + "'")
  {
    RenderArguments(Curl, key, baseUrl,
      CurlIntro, "'", "/chat/completions'", CurlBetween, "Bearer ", "'", CurlOutro);
  }
}
