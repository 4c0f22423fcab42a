/**
 * Config resolution (`prepare_url` and the lookup in `prepare_headers`):
 * the entry for the exact model is used whole, otherwise the `"*"` entry,
 * otherwise an empty entry. Fields are never merged across entries.
 */
module Routing {
  import opened Wrappers
  import opened JsonValue
  import opened Errors

  /** One config entry: field name (`url`, `key`, ...) to value. */
  type Entry = map<string, string>

  /** The loaded `config.json`: model name to entry. */
  type Config = map<string, Entry>

  const Wildcard: string := "*"

  /** The model value is a key of the config. */
  predicate NamesEntry(config: Config, model: Json) {
    model.Str? && model.s in config
  }

  /** The fallback `app_config.get("*", {})`. */
  function FallbackEntry(config: Config): Entry {
    if Wildcard in config then config[Wildcard] else map[]
  }

  /**
   * `app_config.get(model, app_config.get("*", {}))`. Lists and objects are
   * unhashable, so the lookup itself raises; any other value that is not a
   * config key (None, a number, an unknown name) falls back to `"*"`.
   */
  function ResolveEntry(config: Config, model: Json): (r: Result<Entry, Error>)
    ensures r.Failure? <==> !Hashable(model)
    ensures r.Failure? ==> r.error == Unhashable(TypeName(model))
    ensures NamesEntry(config, model) ==> r == Success(config[model.s])
    ensures Hashable(model) && !NamesEntry(config, model) ==>
              r == Success(if Wildcard in config then config[Wildcard] else map[])
  {
    if !Hashable(model) then Failure(Unhashable(TypeName(model)))
    else if NamesEntry(config, model) then Success(config[model.s])
    else Success(FallbackEntry(config))
  }

  /** `entry.get(name)`. */
  function Field(entry: Entry, name: string): Option<string> {
    if name in entry then Some(entry[name]) else None
  }

  /** The field `name` as resolved for `model`: None when the resolved entry lacks it. */
  function ResolveField(config: Config, model: Json, name: string): (r: Result<Option<string>, Error>)
    ensures r.Failure? <==> !Hashable(model)
    ensures NamesEntry(config, model) ==>
              r == Success(if name in config[model.s] then Some(config[model.s][name]) else None)
    ensures Hashable(model) && !NamesEntry(config, model) ==>
              r == Success(if Wildcard in config && name in config[Wildcard]
                           then Some(config[Wildcard][name]) else None)
  {
    match ResolveEntry(config, model)
    case Failure(e) => Failure(e)
    case Success(entry) => Success(Field(entry, name))
  }

  /**
   * No per-field merging: when the model names an entry, what the `"*"`
   * entry holds makes no difference, even for fields the model's entry lacks.
   */
  lemma ExactEntryIgnoresWildcard(config: Config, model: string, wildcard: Entry, name: string)
    requires model in config && model != Wildcard
    ensures ResolveField(config[Wildcard := wildcard], Str(model), name)
            == ResolveField(config, Str(model), name)
  {
  }

  /** A field missing from the model's own entry stays missing, whatever `"*"` holds. */
  lemma MissingFieldIsNotInherited(config: Config, model: string, name: string)
    requires model in config && name !in config[model]
    ensures ResolveField(config, Str(model), name) == Success(None)
  {
  }

  /**
   * When the model names no entry, only the `"*"` entry matters: every other
   * model's entry can be changed or dropped without effect.
   */
  lemma FallbackIgnoresOtherModels(config: Config, other: Config, model: Json, name: string)
    requires Hashable(model) && !NamesEntry(config, model) && !NamesEntry(other, model)
    requires (Wildcard in config <==> Wildcard in other)
    requires Wildcard in config ==> config[Wildcard] == other[Wildcard]
    ensures ResolveField(config, model, name) == ResolveField(other, model, name)
  {
  }

  /** With neither the model nor `"*"` configured, every field resolves to None. */
  lemma NothingConfiguredGivesNone(config: Config, model: Json, name: string)
    requires Hashable(model) && !NamesEntry(config, model) && Wildcard !in config
    ensures ResolveField(config, model, name) == Success(None)
  {
  }

  /** An absent or null `model` uses the `"*"` entry. */
  lemma NullModelUsesWildcard(config: Config, name: string)
    requires Wildcard in config && name in config[Wildcard]
    ensures ResolveField(config, Null, name) == Success(Some(config[Wildcard][name]))
  {
  }
}
