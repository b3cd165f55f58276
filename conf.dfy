/** Startup configuration (server/conf.py). The two environment variables are
    passed in; None stands for an unset variable. */
module Conf {
  import opened Common

  const IN_MEMORY := "in_memory"
  const DATABASE := "database"

  datatype Config = Config(datastoreType: string, databaseUrl: Option<string>)

  datatype ConfigError = InvalidDatastoreType(value: string) | MissingDatabaseUrl {
    function Message(): string {
      match this
      case InvalidDatastoreType(v) => "Invalid DATASTORE_TYPE: " + v + ". Must be 'in_memory' or 'database'."
      case MissingDatabaseUrl => "DATABASE_URL must be set when DATASTORE_TYPE is 'database'."
    }
  }

  /** The invalid-type error reads as conf.py writes it. */
  lemma InvalidTypeMessageText()
    ensures InvalidDatastoreType("x").Message() == "Invalid DATASTORE_TYPE: x. Must be 'in_memory' or 'database'."
  {
  }

  /** The missing-URL error reads as conf.py writes it. */
  lemma MissingUrlMessageText()
    ensures MissingDatabaseUrl.Message() == "DATABASE_URL must be set when DATASTORE_TYPE is 'database'."
  {
  }

  /** The invalid-type error names the rejected value, and differs from the
      missing-URL error. */
  lemma ConfigErrorNamesValue(v: string, w: string)
    ensures InvalidDatastoreType(v).Message() == InvalidDatastoreType(w).Message() <==> v == w
    ensures InvalidDatastoreType(v).Message() != MissingDatabaseUrl.Message()
  {
    if InvalidDatastoreType(v).Message() == InvalidDatastoreType(w).Message() {
      SameFrame("Invalid DATASTORE_TYPE: ", v, w, ". Must be 'in_memory' or 'database'.");
    }
    assert |InvalidDatastoreType(v).Message()| >= 60;
    assert |MissingDatabaseUrl.Message()| == 59;
  }

  /** Python's truthiness of an optional string: set and non-empty. */
  predicate IsSetNonEmpty(s: Option<string>) {
    s.Some? && s.value != ""
  }

  /** get_config with DATASTORE_TYPE and DATABASE_URL given as arguments. */
  function GetConfig(datastoreTypeEnv: Option<string>, databaseUrlEnv: Option<string>): (r: Result<Config, ConfigError>)
    ensures var t := datastoreTypeEnv.GetOr(IN_MEMORY);
            r.Success? <==> t == IN_MEMORY || (t == DATABASE && IsSetNonEmpty(databaseUrlEnv))
    ensures r.Success? ==> r.value.datastoreType in {IN_MEMORY, DATABASE}
    ensures r.Success? && r.value.datastoreType == DATABASE ==> IsSetNonEmpty(r.value.databaseUrl)
  {
    var datastoreType := datastoreTypeEnv.GetOr(IN_MEMORY);
    var databaseUrl := databaseUrlEnv;
    if datastoreType != IN_MEMORY && datastoreType != DATABASE then
      Failure(InvalidDatastoreType(datastoreType))
    else if datastoreType == DATABASE && !IsSetNonEmpty(databaseUrl) then
      Failure(MissingDatabaseUrl)
    else
      Success(Config(datastoreType, databaseUrl))
  }

  /** An unset DATASTORE_TYPE means the in-memory store, whatever the URL. */
  lemma UnsetTypeMeansInMemory(url: Option<string>)
    ensures GetConfig(None, url) == Success(Config(IN_MEMORY, url))
  {
  }

  /** Any value other than the two known ones is refused, naming the value. */
  lemma UnknownTypeRefused(t: string, url: Option<string>)
    requires t != IN_MEMORY && t != DATABASE
    ensures GetConfig(Some(t), url) == Failure(InvalidDatastoreType(t))
  {
  }

  /** "database" needs a non-empty URL. */
  lemma DatabaseNeedsUrl(url: Option<string>)
    ensures GetConfig(Some(DATABASE), url).Failure? <==> url == None || url == Some("")
    ensures !IsSetNonEmpty(url) ==> GetConfig(Some(DATABASE), url) == Failure(MissingDatabaseUrl)
  {
  }

  /** A successful configuration holds exactly the type and URL it was given. */
  lemma ConfigKeepsInputs(t: Option<string>, url: Option<string>)
    requires GetConfig(t, url).Success?
    ensures GetConfig(t, url).value == Config(t.GetOr(IN_MEMORY), url)
  {
  }
}
