/** Model-family selection for ColBERT (primeqa/ir/dense/colbert_top/colbert/modeling/factory.py):
    a checkpoint's model type is mapped onto one of three families, which picks
    the encoder class and the query and document tokenizers. Loading the
    checkpoint and building the encoders are outside the model; their results
    are parameters or tagged values. */
module ColbertFactory {
  import opened Wrappers

  /** The model families the factory supports. */
  datatype Family = Bert | XlmRoberta | Roberta

  function FamilyName(f: Family): string {
    match f
    case Bert => "bert"
    case XlmRoberta => "xlm-roberta"
    case Roberta => "roberta"
  }

  datatype FactoryError =
    | UnknownModelType(subtype: string)     // the assertion in map_model_type
    | MissingModelType                      // a checkpoint file without a `model_type` entry
    | NotImplemented(modelType: string)     // a model type outside the three families

  /** `model_type_mapping`. */
  const ModelTypeMapping: map<string, string> := map[
    "bert" := "bert",
    "bert-base" := "bert",
    "bert-large" := "bert",
    "roberta" := "roberta",
    "roberta-base" := "roberta",
    "roberta-large" := "roberta",
    "xlm-roberta" := "xlm-roberta",
    "xlm-roberta-base" := "xlm-roberta",
    "xlm-roberta-large" := "xlm-roberta"
  ]

  /** `map_model_type(model_subtype)`: every known subtype maps to the name of
      a family; any other subtype fails the assertion. */
  function MapModelType(subtype: string): (r: Result<string, FactoryError>)
    ensures r.Ok? <==> subtype in ModelTypeMapping
    ensures r.Ok? ==> exists f :: r.value == FamilyName(f)
    ensures r.Err? ==> r.error == UnknownModelType(subtype)
  {
    if subtype in ModelTypeMapping then
      assert ModelTypeMapping[subtype] in {FamilyName(Bert), FamilyName(Roberta), FamilyName(XlmRoberta)};
      Ok(ModelTypeMapping[subtype])
    else Err(UnknownModelType(subtype))
  }

  /** The table is idempotent: a mapped family maps to itself. */
  lemma MapModelTypeIdempotent(subtype: string)
    requires MapModelType(subtype).Ok?
    ensures MapModelType(MapModelType(subtype).value) == MapModelType(subtype)
  {
  }

  /** The known subtypes are exactly each family's name, alone or followed by
      `-base` or `-large`, and each maps to the family its name starts with. */
  lemma MapModelTypeByPrefix(subtype: string, f: Family)
    ensures MapModelType(subtype) == Ok(FamilyName(f)) <==>
      subtype in {FamilyName(f), FamilyName(f) + "-base", FamilyName(f) + "-large"}
  {
    match f
    case Bert =>
      assert FamilyName(f) + "-base" == "bert-base" && FamilyName(f) + "-large" == "bert-large";
    case Roberta =>
      assert FamilyName(f) + "-base" == "roberta-base" && FamilyName(f) + "-large" == "roberta-large";
    case XlmRoberta =>
      assert FamilyName(f) + "-base" == "xlm-roberta-base" && FamilyName(f) + "-large" == "xlm-roberta-large";
  }

  /** The family a model-type string dispatches to, if any: the `if model_type == ...` chains. */
  function FamilyOf(modelType: string): (r: Option<Family>)
    ensures r.Some? <==> exists f :: modelType == FamilyName(f)
    ensures r.Some? ==> FamilyName(r.value) == modelType
  {
    if modelType == "bert" then assert modelType == FamilyName(Bert); Some(Bert)
    else if modelType == "xlm-roberta" then assert modelType == FamilyName(XlmRoberta); Some(XlmRoberta)
    else if modelType == "roberta" then assert modelType == FamilyName(Roberta); Some(Roberta)
    else None
  }

  /** Every mapped model type is one the dispatch supports, so the
      `NotImplementedError` branches are unreachable after `map_model_type`. */
  lemma MappedTypeIsSupported(subtype: string)
    requires MapModelType(subtype).Ok?
    ensures FamilyOf(MapModelType(subtype).value).Some?
  {
  }

  /** The fields of a ColBERT configuration the factory reads or writes. */
  class ColBERTConfig {
    var modelType: string
    var queryMaxlen: int
    var docMaxlen: int
    var teacherDocMaxlen: int
    var attendToMaskTokens: bool

    constructor (modelType: string, queryMaxlen: int, docMaxlen: int, teacherDocMaxlen: int, attendToMaskTokens: bool)
      ensures this.modelType == modelType && this.queryMaxlen == queryMaxlen && this.docMaxlen == docMaxlen
      ensures this.teacherDocMaxlen == teacherDocMaxlen && this.attendToMaskTokens == attendToMaskTokens
    {
      this.modelType := modelType;
      this.queryMaxlen := queryMaxlen;
      this.docMaxlen := docMaxlen;
      this.teacherDocMaxlen := teacherDocMaxlen;
      this.attendToMaskTokens := attendToMaskTokens;
    }
  }

  /** What `torch_load_dnn(name)` yields, as far as the factory looks at it:
      the stored `config` dict (None when absent) and `model_type` (None when absent). */
  datatype DnnCheckpoint = DnnCheckpoint(config: Option<map<string, string>>, modelType: Option<string>)

  predicate EndsWith(s: string, suffix: string) {
    |suffix| <= |s| && s[|s| - |suffix|..] == suffix
  }

  /** `s.endswith(suffix)` holds exactly when `s` is some string followed by `suffix`. */
  lemma EndsWithMeaning(s: string, suffix: string)
    ensures EndsWith(s, suffix) <==> exists p :: s == p + suffix
  {
    if EndsWith(s, suffix) {
      var p := s[..|s| - |suffix|];
      assert s == p + suffix;
    }
    if exists p :: s == p + suffix {
      var p :| s == p + suffix;
      assert s[|s| - |suffix|..] == suffix;
    }
  }

  /** The name denotes a checkpoint file rather than a hub model. */
  predicate IsCheckpointFile(name: string) {
    EndsWith(name, ".dnn") || EndsWith(name, ".model")
  }

  /** The checkpoint's model type: the file's `model_type` entry for a
      checkpoint file, the hub configuration's otherwise. */
  function CheckpointModelType(name: string, dnn: DnnCheckpoint, hubModelType: string): (r: Result<string, FactoryError>)
    ensures IsCheckpointFile(name) ==> (r.Ok? <==> dnn.modelType.Some?)
    ensures IsCheckpointFile(name) && r.Ok? ==> r.value == dnn.modelType.value
    ensures !IsCheckpointFile(name) ==> r == Ok(hubModelType)
    ensures r.Err? ==> r.error == MissingModelType
  {
    if IsCheckpointFile(name) then
      if dnn.modelType.Some? then Ok(dnn.modelType.value) else Err(MissingModelType)
    else Ok(hubModelType)
  }

  /** The checkpoint's encoder configuration, when it holds a non-empty one. */
  function CheckpointConfig(name: string, dnn: DnnCheckpoint): (r: Option<map<string, string>>)
    ensures r.Some? <==> IsCheckpointFile(name) && dnn.config.Some? && |dnn.config.value| > 0
    ensures r.Some? ==> r == dnn.config
  {
    if IsCheckpointFile(name) && dnn.config.Some? && |dnn.config.value| > 0 then dnn.config else None
  }

  /** The encoder classes. */
  datatype EncoderClass = HfColbert | HfColbertXlmr | HfColbertRoberta

  function EncoderFor(f: Family): EncoderClass {
    match f
    case Bert => HfColbert
    case XlmRoberta => HfColbertXlmr
    case Roberta => HfColbertRoberta
  }

  /** How an encoder was built: from the checkpoint's configuration with the
      named state dict loaded, or by `from_pretrained(name, ...)`. */
  datatype Construction = FromConfig(config: map<string, string>, stateDict: string) | FromPretrained(name: string)

  datatype ColbertModel = ColbertModel(encoder: EncoderClass, construction: Construction)

  /** `get_colbert_from_pretrained(name, colbert_config)`. The configuration's
      model type is overwritten with the checkpoint's mapped model type, which
      then selects the encoder; nothing else in the configuration changes. */
  method GetColbertFromPretrained(name: string, colbertConfig: ColBERTConfig, dnn: DnnCheckpoint, hubModelType: string)
    returns (r: Result<ColbertModel, FactoryError>)
    modifies colbertConfig
    ensures var checkpointType := CheckpointModelType(name, dnn, hubModelType);
      r.Ok? <==> checkpointType.Ok? && MapModelType(checkpointType.value).Ok?
    ensures var checkpointType := CheckpointModelType(name, dnn, hubModelType);
      r.Ok? ==> colbertConfig.modelType == MapModelType(checkpointType.value).value
    ensures var checkpointType := CheckpointModelType(name, dnn, hubModelType);
      r.Err? ==> r.error == (if checkpointType.Err? then checkpointType.error else MapModelType(checkpointType.value).error)
    ensures r.Err? ==> colbertConfig.modelType == old(colbertConfig.modelType)
    ensures r.Ok? ==> FamilyOf(colbertConfig.modelType).Some?
    ensures r.Ok? ==> r.value.encoder == EncoderFor(FamilyOf(colbertConfig.modelType).value)
    ensures r.Ok? ==>
      r.value.construction == (
        match CheckpointConfig(name, dnn)
        case Some(config) => FromConfig(config, name)
        case None => FromPretrained(name))
    ensures colbertConfig.queryMaxlen == old(colbertConfig.queryMaxlen)
      && colbertConfig.docMaxlen == old(colbertConfig.docMaxlen)
      && colbertConfig.teacherDocMaxlen == old(colbertConfig.teacherDocMaxlen)
      && colbertConfig.attendToMaskTokens == old(colbertConfig.attendToMaskTokens)
  {
    var config: Option<map<string, string>>;
    var checkpointModelType: string;
    if EndsWith(name, ".dnn") || EndsWith(name, ".model") {
      config := dnn.config;
      if config.Some? && |config.value| == 0 {
        config := None;
      }
      if dnn.modelType.None? {
        return Err(MissingModelType);
      }
      checkpointModelType := dnn.modelType.value;
    } else {
      checkpointModelType := hubModelType;
      config := None;
    }
    var mapped := MapModelType(checkpointModelType);
    if mapped.Err? {
      return Err(mapped.error);
    }
    if mapped.value != colbertConfig.modelType {
      colbertConfig.modelType := mapped.value;
    }
    var modelType := colbertConfig.modelType;
    var construction := if config.Some? then FromConfig(config.value, name) else FromPretrained(name);
    if modelType == "bert" {
      r := Ok(ColbertModel(HfColbert, construction));
    } else if modelType == "xlm-roberta" {
      r := Ok(ColbertModel(HfColbertXlmr, construction));
    } else if modelType == "roberta" {
      r := Ok(ColbertModel(HfColbertRoberta, construction));
    } else {
      // unreachable: map_model_type only yields the three family names
      assert false;
      r := Err(NotImplemented(modelType));
    }
  }

  /** A query tokenizer: the family's class, built with the maximum length and
      the name; only the bert one takes `attend_to_mask_tokens`. */
  datatype QueryTokenizer = QueryTokenizer(family: Family, maxlen: int, name: string, attendToMaskTokens: Option<bool>)

  datatype DocTokenizer = DocTokenizer(family: Family, maxlen: int, name: string)

  /** `get_query_tokenizer(name, colbert_config)`. Once the configuration
      holds a family name, as `get_colbert_from_pretrained` leaves it, the
      tokenizer is of that family. */
  method GetQueryTokenizer(name: string, colbertConfig: ColBERTConfig) returns (r: Result<QueryTokenizer, FactoryError>)
    ensures r.Ok? <==> MapModelType(colbertConfig.modelType).Ok?
    ensures r.Err? ==> r.error == UnknownModelType(colbertConfig.modelType)
    ensures r.Ok? ==> MapModelType(colbertConfig.modelType) == Ok(FamilyName(r.value.family))
    ensures r.Ok? ==> r.value.maxlen == colbertConfig.queryMaxlen && r.value.name == name
    ensures r.Ok? ==> (r.value.attendToMaskTokens.Some? <==> r.value.family == Bert)
    ensures r.Ok? && r.value.family == Bert ==> r.value.attendToMaskTokens == Some(colbertConfig.attendToMaskTokens)
    ensures FamilyOf(colbertConfig.modelType).Some? ==> r.Ok? && r.value.family == FamilyOf(colbertConfig.modelType).value
  {
    var mapped := MapModelType(colbertConfig.modelType);
    if mapped.Err? {
      return Err(mapped.error);
    }
    var modelType := mapped.value;
    var maxlen := colbertConfig.queryMaxlen;
    var attendToMaskTokens := colbertConfig.attendToMaskTokens;
    if modelType == "bert" {
      r := Ok(QueryTokenizer(Bert, maxlen, name, Some(attendToMaskTokens)));
    } else if modelType == "xlm-roberta" {
      r := Ok(QueryTokenizer(XlmRoberta, maxlen, name, None));
    } else if modelType == "roberta" {
      r := Ok(QueryTokenizer(Roberta, maxlen, name, None));
    } else {
      // unreachable: map_model_type only yields the three family names
      assert false;
      r := Err(NotImplemented(modelType));
    }
  }

  /** `get_doc_tokenizer(name, colbert_config, is_teacher)`. Once the
      configuration holds a family name the tokenizer is of that family. */
  method GetDocTokenizer(name: string, colbertConfig: ColBERTConfig, isTeacher: bool) returns (r: Result<DocTokenizer, FactoryError>)
    ensures r.Ok? <==> MapModelType(colbertConfig.modelType).Ok?
    ensures r.Err? ==> r.error == UnknownModelType(colbertConfig.modelType)
    ensures r.Ok? ==> MapModelType(colbertConfig.modelType) == Ok(FamilyName(r.value.family))
    ensures r.Ok? ==> r.value.name == name
    ensures r.Ok? ==> r.value.maxlen == if isTeacher then colbertConfig.teacherDocMaxlen else colbertConfig.docMaxlen
    ensures FamilyOf(colbertConfig.modelType).Some? ==> r.Ok? && r.value.family == FamilyOf(colbertConfig.modelType).value
  {
    var mapped := MapModelType(colbertConfig.modelType);
    if mapped.Err? {
      return Err(mapped.error);
    }
    var modelType := mapped.value;
    var maxlen := if isTeacher then colbertConfig.teacherDocMaxlen else colbertConfig.docMaxlen;
    if modelType == "bert" {
      r := Ok(DocTokenizer(Bert, maxlen, name));
    } else if modelType == "xlm-roberta" {
      r := Ok(DocTokenizer(XlmRoberta, maxlen, name));
    } else if modelType == "roberta" {
      r := Ok(DocTokenizer(Roberta, maxlen, name));
    } else {
      // unreachable: map_model_type only yields the three family names
      assert false;
      r := Err(NotImplemented(modelType));
    }
  }
}
