/** The factory method: the extractor for a file is chosen by the raw ending
    of its path, `json` or `xml`; any other path is refused. */
module FactoryMethod {
  import opened Wrappers

  /** `s.endswith(suffix)`. */
  predicate EndsWith(s: string, suffix: string)
  {
    |suffix| <= |s| && s[|s| - |suffix|..] == suffix
  }

  /** A string ends with `suffix` exactly when it is something followed by
      `suffix`. */
  lemma EndsWithMeans(s: string, suffix: string)
    ensures EndsWith(s, suffix) <==> exists t :: s == t + suffix
  {
    if EndsWith(s, suffix) {
      var t := s[..|s| - |suffix|];
      assert s == t + suffix;
    }
    if t :| s == t + suffix {
      assert s[|s| - |suffix|..] == suffix;
    }
  }

  /** A path cannot end in both `json` and `xml`, so the order of the two
      tests does not matter. */
  lemma JsonXmlExclusive(filepath: string)
    ensures EndsWith(filepath, "json") ==> filepath[|filepath| - 1] == 'n'
    ensures EndsWith(filepath, "xml") ==> filepath[|filepath| - 1] == 'l'
    ensures !(EndsWith(filepath, "json") && EndsWith(filepath, "xml"))
  {
    var n := |filepath|;
    assert EndsWith(filepath, "json") ==> filepath[n - 1] == filepath[n - 4..][3];
    assert EndsWith(filepath, "xml") ==> filepath[n - 1] == filepath[n - 3..][2];
  }

  /** An extractor holds the path it was made for; making one reads nothing. */
  datatype Extractor = JsonExtractor(filepath: string) | XmlExtractor(filepath: string)

  datatype FactoryError = ValueError(message: string)

  /** `data_extraction_factory(filepath)`. */
  function DataExtractionFactory(filepath: string): (r: Result<Extractor, FactoryError>)
    ensures r.Ok? ==> r.value.filepath == filepath
    ensures r.Ok? && r.value.JsonExtractor? <==> exists t :: filepath == t + "json"
    ensures r.Ok? && r.value.XmlExtractor? <==> exists t :: filepath == t + "xml"
    ensures r.Err? ==> r.error == ValueError("Cannot extract data from " + filepath)
  {
    EndsWithMeans(filepath, "json");
    EndsWithMeans(filepath, "xml");
    JsonXmlExclusive(filepath);
    if EndsWith(filepath, "json") then Ok(JsonExtractor(filepath))
    else if EndsWith(filepath, "xml") then Ok(XmlExtractor(filepath))
    else Err(ValueError("Cannot extract data from " + filepath))
  }

  /** `extract_data_from(filepath)`: the factory's extractor, or `None` where
      the factory raises. */
  function ExtractDataFrom(filepath: string): (r: Option<Extractor>)
    ensures r.None? <==> DataExtractionFactory(filepath).Err?
    ensures r.Some? ==> DataExtractionFactory(filepath) == Ok(r.value)
  {
    match DataExtractionFactory(filepath)
    case Ok(e) => Some(e)
    case Err(_) => None
  }

  /** The demonstration's three paths: the SQLite file is refused, the JSON
      and XML files get their extractors. */
  lemma DemoPaths()
    ensures ExtractDataFrom("data/person.sq3") == None
    ensures ExtractDataFrom("data/movies.json") == Some(JsonExtractor("data/movies.json"))
    ensures ExtractDataFrom("data/person.xml") == Some(XmlExtractor("data/person.xml"))
  {
    var sq3 := "data/person.sq3";
    assert !EndsWith(sq3, "json") by {
      assert sq3[|sq3| - 1] == '3';
    }
    assert !EndsWith(sq3, "xml") by {
      assert sq3[|sq3| - 1] == '3';
    }
    var json := "data/movies.json";
    assert EndsWith(json, "json") by {
      assert json[|json| - 4..] == "json";
    }
    var xml := "data/person.xml";
    assert !EndsWith(xml, "json") by {
      assert xml[|xml| - 1] == 'l';
    }
    assert EndsWith(xml, "xml") by {
      assert xml[|xml| - 3..] == "xml";
    }
  }
}
