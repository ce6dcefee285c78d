/** The simulated LLM: a fixed response per model name, returned whole or
    streamed one whitespace-separated word at a time, each followed by one
    space. */
module SimulatedLlms {
  import opened Wrappers
  import opened PyText
  import opened Prompting

  /** The canned responses, by model name. */
  const SimulatedResponses: map<string, string> :=
    map[
      "coder" := "include <DHT.h> // Include the DHT library\n\n#define DHTPIN 4    // Pin connected to DHT11 data pin\n#define DHTTYPE DHT11  // Type of DHT sensor (DHT11, DHT22, or DHT12)\n#define LEDPIN 7    // Pin connected to the LED\n\nDHT dht(DHTPIN, DHTTYPE); // Create a DHT object\n\nvoid setup() {\n  Serial.begin(9600); // Initialize serial communication\n  dht.begin();       // Initialize the DHT sensor\n  pinMode(LEDPIN, OUTPUT); // Set the LED pin as an output\n  digitalWrite(LEDPIN, LOW);  // Ensure the LED is off initially\n}\n\nvoid loop() {\n  // Read humidity from the DHT11 sensor\n  float humidity = dht.readHumidity();\n\n  // Check if reading was successful\n  if (isnan(humidity)) {\n    Serial.println(\"Failed to read from DHT sensor!\"); // Print error message\n  } else {\n    Serial.print(\"Humidity: \");\n    Serial.print(humidity);\n    Serial.println(\" %\"); // Print humidity value\n\n    // Check if humidity is greater than 70%\n    if (humidity > 70) {\n      digitalWrite(LEDPIN, HIGH); // Turn the LED on\n      Serial.println(\"Humidity is high! LED is ON\");\n    } else {\n      digitalWrite(LEDPIN, LOW);  // Turn the LED off\n      Serial.println(\"Humidity is normal. LED is OFF\");\n    }\n  }\n  delay(2000); // Wait 2 seconds before the next reading\n}",
      "compressor" := "<<=components=>>\nesp:wokwi-esp8266\ndht:wokwi-dht11\nled1:wokwi-led\nbb1:wokwi-breadboard\n<<=connections=>>\nesp:3V3 bb1:tp.36\nesp:GND.1 bb1:tn.40\ndht:VCC bb1:tp.11\ndht:SDA bb1:19t.b\ndht:GND bb1:tn.16\nesp:GND.2 bb1:bn.42\nled1:C bb1:bn.41\nled1:A bb1:38t.b\nesp:D7 bb1:38t.e\nesp:D4 bb1:19t.e\n<<=attrs=>>\nled1 color:red",
      "generator" := "{\"parts\": [{\"id\": \"uno\", \"type\": \"wokwi-arduino-uno\", \"attrs\": {}}, {\"id\": \"bb1\", \"type\": \"wokwi-breadboard\", \"attrs\": {}}, {\"id\": \"led1\", \"type\": \"wokwi-led\", \"attrs\": {\"color\": \"red\"}}, {\"id\": \"r1\", \"type\": \"wokwi-resistor\", \"attrs\": {\"value\": \"220\"}}, {\"id\": \"sensor1\", \"type\": \"wokwi-digital-motion-sensor\", \"attrs\": {}}], \"connections\": [[\"bb1:10t.a\", \"led1:A\", \"red\", [\"v0\"]], [\"bb1:11t.a\", \"led1:C\", \"black\", [\"v0\"]], [\"r1:1\", \"bb1:10t.b\", \"red\", [\"v0\"]], [\"r1:2\", \"bb1:11t.b\", \"black\", [\"v0\"]], [\"uno:GND.2\", \"bb1:11t.e\", \"black\", [\"v0\"]], [\"sensor1:VCC\", \"bb1:20t.e\", \"red\", [\"v0\"]], [\"sensor1:GND\", \"bb1:21t.e\", \"black\", [\"v0\"]], [\"sensor1:OUT\", \"bb1:21t.a\", \"green\", [\"v0\"]], [\"bb1:21t.d\", \"uno:2\", \"green\", [\"v0\"]], [\"uno:GND.1\", \"bb1:21t.c\", \"black\", [\"v0\"]]]}",
      "baseline" := "```cpp\ninclude <DHT.h> // Include the DHT library\n\n#define DHTPIN 4    // Pin connected to DHT11 data pin\n#define DHTTYPE DHT11  // Type of DHT sensor (DHT11, DHT22, or DHT12)\n#define LEDPIN 7    // Pin connected to the LED\n\nDHT dht(DHTPIN, DHTTYPE); // Create a DHT object\n\nvoid setup() {\n  Serial.begin(9600); // Initialize serial communication\n  dht.begin();       // Initialize the DHT sensor\n  pinMode(LEDPIN, OUTPUT); // Set the LED pin as an output\n  digitalWrite(LEDPIN, LOW);  // Ensure the LED is off initially\n}\n\nvoid loop() {\n  // Read humidity from the DHT11 sensor\n  float humidity = dht.readHumidity();\n\n  // Check if reading was successful\n  if (isnan(humidity)) {\n    Serial.println(\"Failed to read from DHT sensor!\"); // Print error message\n  } else {\n    Serial.print(\"Humidity: \");\n    Serial.print(humidity);\n    Serial.println(\" %\"); // Print humidity value\n\n    // Check if humidity is greater than 70%\n    if (humidity > 70) {\n      digitalWrite(LEDPIN, HIGH); // Turn the LED on\n      Serial.println(\"Humidity is high! LED is ON\");\n    } else {\n      digitalWrite(LEDPIN, LOW);  // Turn the LED off\n      Serial.println(\"Humidity is normal. LED is OFF\");\n    }\n  }\n  delay(2000); // Wait 2 seconds before the next reading\n}```\n```json{\"parts\":[{\"id\":\"nano\",\"type\":\"wokwi-arduino-nano\"},{\"id\":\"pir\",\"type\":\"wokwi-pir-motion-sensor\"},{\"id\":\"mq2\",\"type\":\"wokwi-gas-sensor\"},{\"id\":\"bb1\",\"type\":\"wokwi-breadboard\"}],\"connections\":[[\"nano:A0\",\"bb1:22t.e\",\"green\",[\"v0\"]],[\"mq2:AOUT\",\"bb1:9t.a\",\"green\",[\"v0\"]],[\"pir:OUT\",\"bb1:29t.a\",\"green\",[\"v0\"]],[\"bb1:29t.e\",\"nano:2\",\"green\",[\"v0\"]]]}```",
      "base" := "HEHEHE" ]

  const Missing := "[Simulation Missing]"

  /** `SIMULATED_RESPONSES.get(model_name, "[Simulation Missing]")`. */
  function ResponseFor(modelName: string): (text: string)
    ensures modelName in SimulatedResponses ==> text == SimulatedResponses[modelName]
    ensures modelName !in SimulatedResponses ==> text == Missing
  {
    if modelName in SimulatedResponses then SimulatedResponses[modelName] else Missing
  }

  /** The table has exactly the five model names. */
  lemma KnownModels()
    ensures SimulatedResponses.Keys == {"coder", "compressor", "generator", "baseline", "base"}
  {
  }

  /** The chunk carrying one word of a stream. */
  function WordChunk(word: string): Completion {
    Completion(Some(Choice(Some(word + " "))))
  }

  /** The chunks `_stream_response` yields for `text`: one per word, in order. */
  function StreamChunks(text: string): (chunks: seq<Completion>)
    ensures |chunks| == |Words(text)|
    ensures forall i :: 0 <= i < |chunks| ==> chunks[i] == WordChunk(Words(text)[i])
  {
    var words := Words(text);
    seq(|words|, i requires 0 <= i < |words| => WordChunk(words[i]))
  }

  /** What a call returns: a whole completion, or the stream of chunks. */
  datatype CallResult = Whole(completion: Completion) | Streamed(chunks: seq<Completion>)

  class SimulatedLlama {
    const modelName: string
    const responseText: string

    /** `SimulatedLlama(model_name)`: the response is looked up once. */
    constructor (modelName: string)
      ensures this.modelName == modelName && responseText == ResponseFor(modelName)
    {
      this.modelName := modelName;
      this.responseText := ResponseFor(modelName);
    }

    /** `__call__`. The result depends on `stream` and the response text
        only: the prompt, `max_tokens` and `stop` have no effect. */
    method Call(request: Request, stream: bool) returns (r: CallResult)
      ensures !stream ==> r == Whole(Completion(Some(Choice(Some(responseText)))))
      ensures stream ==> r == Streamed(StreamChunks(responseText))
    {
      if !stream {
        r := Whole(Completion(Some(Choice(Some(responseText)))));
      } else {
        var chunks := StreamResponse();
        r := Streamed(chunks);
      }
    }

    /** `_stream_response`: one chunk per word of the response, in order. */
    method StreamResponse() returns (chunks: seq<Completion>)
      ensures chunks == StreamChunks(responseText)
    {
      var words := Words(responseText);
      chunks := [];
      for i := 0 to |words|
        invariant |chunks| == i
        invariant forall j :: 0 <= j < i ==> chunks[j] == WordChunk(words[j])
      {
        chunks := chunks + [WordChunk(words[i])];
      }
    }

    /** The instance as a complete-call LLM. */
    function AsLlm(): Llm {
      (request: Request) => Completion(Some(Choice(Some(responseText))))
    }

    /** The instance as a streaming LLM. */
    function AsStreamLlm(): StreamLlm {
      (request: Request) => StreamChunks(responseText)
    }
  }

  /** A non-streaming call hands back the response text unchanged. */
  lemma WholeTextUnchanged(text: string)
    ensures TextOf(Completion(Some(Choice(Some(text))))) == text
  {
    TextOfCases(text);
  }

  /** Every streamed token is a non-empty word without whitespace followed
      by exactly one space, and the words are the text's words in order. */
  lemma StreamTokens(text: string)
    ensures |Tokens(StreamChunks(text))| == |Words(text)|
    ensures forall i :: 0 <= i < |Words(text)| ==>
      Tokens(StreamChunks(text))[i] == Words(text)[i] + " " &&
      Words(text)[i] != [] && NoSpace(Words(text)[i])
  {
  }

  /** The tokens of a list of words, each followed by one space. */
  function Spaced(ws: seq<string>): (r: seq<string>)
    ensures |r| == |ws|
    ensures forall i :: 0 <= i < |ws| ==> r[i] == ws[i] + " "
  {
    seq(|ws|, i requires 0 <= i < |ws| => ws[i] + " ")
  }

  lemma {:induction false} ConcatSpaced(ws: seq<string>)
    requires ws != []
    ensures Concat(Spaced(ws)) == Join(ws, " ") + " "
    decreases |ws|
  {
    if |ws| == 1 {
      assert Spaced(ws) == [ws[0] + " "];
      assert Spaced(ws)[..0] == [];
    } else {
      assert Spaced(ws) == [ws[0] + " "] + Spaced(ws[1..]);
      ConcatCons(ws[0] + " ", Spaced(ws[1..]));
      ConcatSpaced(ws[1..]);
    }
  }

  /** The concatenated stream is the words joined by single spaces plus a
      trailing space, or empty when the text is all whitespace: line breaks
      and runs of whitespace are not preserved. */
  lemma StreamConcat(text: string)
    ensures Concat(Tokens(StreamChunks(text))) == if AllSpace(text) then "" else Join(Words(text), " ") + " "
    ensures Tokens(StreamChunks(text)) == [] <==> AllSpace(text)
  {
    WordsEmpty(text);
    assert Tokens(StreamChunks(text)) == Spaced(Words(text));
    if !AllSpace(text) {
      ConcatSpaced(Words(text));
    }
  }

  /** A trailing whitespace character adds no word. */
  lemma {:induction false} WordsTrailingSpace(s: string, c: char)
    requires IsSpace(c)
    ensures Words(s + [c]) == Words(s)
    decreases |s|
  {
    if s == [] {
      assert [] + [c] == [c];
      assert [c][1..] == [];
    } else {
      assert (s + [c])[1..] == s[1..] + [c];
      WordsTrailingSpace(s[1..], c);
      if |s| > 1 {
        assert (s + [c])[1] == s[1];
      }
    }
  }

  /** Re-splitting the concatenated stream gives back the text's words. */
  lemma StreamRoundTrip(text: string)
    ensures Words(Concat(Tokens(StreamChunks(text)))) == Words(text)
  {
    StreamConcat(text);
    if AllSpace(text) {
      WordsEmpty(text);
    } else {
      WordsOfJoin(Words(text));
      WordsTrailingSpace(Join(Words(text), " "), ' ');
      assert Join(Words(text), " ") + " " == Join(Words(text), " ") + [' '];
    }
  }

  /** The only whitespace character in `s` is the plain space. */
  predicate BlanksOnly(s: string) {
    forall i :: 0 <= i < |s| && IsSpace(s[i]) ==> s[i] == ' '
  }

  lemma {:induction false} ConcatBlanksOnly(xs: seq<string>)
    requires forall k :: 0 <= k < |xs| ==> BlanksOnly(xs[k])
    ensures BlanksOnly(Concat(xs))
    decreases |xs|
  {
    if xs != [] {
      ConcatBlanksOnly(xs[..|xs| - 1]);
      var a, b := Concat(xs[..|xs| - 1]), xs[|xs| - 1];
      assert Concat(xs) == a + b;
      forall i | 0 <= i < |a + b| && IsSpace((a + b)[i]) ensures (a + b)[i] == ' ' {
        if i < |a| {
          assert (a + b)[i] == a[i];
        } else {
          assert (a + b)[i] == b[i - |a|];
        }
      }
    }
  }

  /** Line breaks, tabs and every other whitespace character of the response
      come out of the stream as plain spaces: the concatenated stream holds
      no whitespace but ' ', so in particular no '\n'. */
  lemma StreamFlattensWhitespace(text: string)
    ensures BlanksOnly(Concat(Tokens(StreamChunks(text))))
    ensures '\n' !in Concat(Tokens(StreamChunks(text)))
  {
    StreamTokens(text);
    var ts := Tokens(StreamChunks(text));
    forall k | 0 <= k < |ts| ensures BlanksOnly(ts[k]) {
      var w := Words(text)[k];
      assert ts[k] == w + " " && NoSpace(w);
      forall i | 0 <= i < |w| ensures (w + " ")[i] == w[i] && !IsSpace(w[i]) { }
    }
    ConcatBlanksOnly(ts);
    var s := Concat(ts);
    forall i | 0 <= i < |s| ensures s[i] != '\n' {
      assert IsSpace('\n');
    }
  }
}
