/** The business configuration: the merge of the stored file over the defaults
    (`load_config`, the same in helpers.py and app.py) and the whitelisted
    update of the config route (`update_config`). */
module Settings {
  import opened Wrappers
  import opened Domain
  import opened Calendar

  /** `load_config`: the defaults overlaid by whatever the stored file holds;
      with no file, the defaults. A stored key the defaults do not know is
      kept. */
  function LoadConfig(stored: Option<Config>): (c: Config)
    ensures stored.None? ==> c == DefaultConfig
    ensures stored.Some? ==> c.Keys == DefaultConfig.Keys + stored.value.Keys
    ensures stored.Some? ==> forall k :: k in stored.value ==> c[k] == stored.value[k]
    ensures forall k :: k in DefaultConfig && (stored.None? || k !in stored.value) ==> c[k] == DefaultConfig[k]
  {
    match stored
    case None => DefaultConfig
    case Some(file) => DefaultConfig + file
  }

  /** Every key of the defaults is present after loading. */
  lemma LoadConfigComplete(stored: Option<Config>)
    ensures DefaultConfig.Keys <= LoadConfig(stored).Keys
  {
  }

  /** Loading a configuration saved from a loaded one gives it back. */
  lemma LoadConfigSaved(stored: Option<Config>)
    ensures LoadConfig(Some(LoadConfig(stored))) == LoadConfig(stored)
  {
  }

  /** `config` with the values of `data` written over it at `keys`. */
  function Overlay(config: Config, data: Config, keys: set<string>): Config
    requires keys <= data.Keys
  {
    config + map k | k in keys :: data[k]
  }

  /** The overlay has the keys of both; at `keys` it holds the new values,
      elsewhere the old ones. */
  lemma OverlayAt(config: Config, data: Config, keys: set<string>)
    requires keys <= data.Keys
    ensures Overlay(config, data, keys).Keys == config.Keys + keys
    ensures forall k :: k in Overlay(config, data, keys) ==>
              Overlay(config, data, keys)[k] == if k in keys then data[k] else config[k]
  {
  }

  /** Writing one more key is one map update. */
  lemma OverlayStep(config: Config, data: Config, keys: set<string>, key: string)
    requires keys <= data.Keys && key in data
    ensures Overlay(config, data, keys + {key}) == Overlay(config, data, keys)[key := data[key]]
  {
    var a, b := Overlay(config, data, keys + {key}), Overlay(config, data, keys)[key := data[key]];
    assert a.Keys == b.Keys;
    forall k | k in a ensures a[k] == b[k] {
    }
  }

  /** Partway through the update loop: `written` holds the known keys of
      `data` already visited, which are those not left in `todo`. */
  ghost predicate Visited(data: Config, known: set<string>, todo: set<string>, written: set<string>) {
    && todo <= data.Keys && written <= data.Keys
    && forall k :: k in data ==> (k in written <==> k !in todo && k in known)
  }

  /** Visiting one more key keeps `Visited`. */
  lemma VisitKey(data: Config, known: set<string>, todo: set<string>, written: set<string>, key: string)
    requires Visited(data, known, todo, written) && key in todo
    ensures Visited(data, known, todo - {key}, if key in known then written + {key} else written)
  {
  }

  /** Once every key is visited, the known keys of `data` are written. */
  lemma VisitedAll(data: Config, known: set<string>, written: set<string>)
    requires Visited(data, known, {}, written)
    ensures written == data.Keys * known
  {
    forall k | k in written ensures k in data.Keys * known { }
    forall k | k in data.Keys * known ensures k in written { }
  }

  /** The config route's update loop (`for key in data: if key in
      DEFAULT_CONFIG: config[key] = data[key]`), over the set of known keys:
      each request key that is known replaces the value; unknown keys are
      ignored and every other key keeps its value. */
  method MergeKnown(config: Config, data: Config, known: set<string>) returns (r: Config)
    ensures r == Overlay(config, data, data.Keys * known)
  {
    r := config;
    var todo := data.Keys;
    ghost var written: set<string> := {};
    assert Overlay(config, data, {}) == config;
    while todo != {}
      invariant Visited(data, known, todo, written)
      invariant r == Overlay(config, data, written)
      decreases |todo|
    {
      var key :| key in todo;
      VisitKey(data, known, todo, written, key);
      if key in known {
        OverlayStep(config, data, written, key);
        r := r[key := data[key]];
        written := written + {key};
      }
      todo := todo - {key};
    }
    VisitedAll(data, known, written);
  }

  /** `update_config` on a loaded configuration: only keys of the defaults
      can change or appear. */
  method UpdateConfig(config: Config, data: Config) returns (r: Config)
    ensures r.Keys == config.Keys + data.Keys * DefaultConfig.Keys
    ensures forall k :: k in r && k in data && k in DefaultConfig ==> r[k] == data[k]
    ensures forall k :: k in r && (k !in data || k !in DefaultConfig) ==> k in config && r[k] == config[k]
  {
    r := MergeKnown(config, data, DefaultConfig.Keys);
    OverlayAt(config, data, data.Keys * DefaultConfig.Keys);
  }

  /** The fields of app.py's settings page, one per configuration key. */
  datatype SettingsForm = SettingsForm(
    rate: int, currency: string, taxMonth: Month, prefix: string,
    businessName: string, businessAddress: string, businessEmail: string, businessPhone: string,
    bankName: string, accountName: string, sortCode: string, accountNumber: string,
    terms: int)

  /** The thirteen values "Save Settings" writes, each under its key. */
  function FormValues(f: SettingsForm): (c: Config)
    ensures c.Keys == DefaultConfig.Keys
    ensures c["hourly_rate"] == Number(f.rate) && c["tax_year_start_month"] == Number(f.taxMonth)
    ensures c["payment_terms"] == Number(f.terms)
    ensures c["currency_symbol"] == Text(f.currency) && c["invoice_prefix"] == Text(f.prefix)
  {
    map[
      "hourly_rate" := Number(f.rate),
      "currency_symbol" := Text(f.currency),
      "tax_year_start_month" := Number(f.taxMonth),
      "invoice_prefix" := Text(f.prefix),
      "business_name" := Text(f.businessName),
      "business_address" := Text(f.businessAddress),
      "business_email" := Text(f.businessEmail),
      "business_phone" := Text(f.businessPhone),
      "bank_name" := Text(f.bankName),
      "account_name" := Text(f.accountName),
      "sort_code" := Text(f.sortCode),
      "account_number" := Text(f.accountNumber),
      "payment_terms" := Number(f.terms)]
  }

  /** Saving the form over a loaded configuration: every default key takes
      the form's value, a key the defaults do not know keeps its stored value,
      and loading the saved file gives the saved configuration back. */
  lemma SavedForm(stored: Option<Config>, f: SettingsForm)
    ensures var saved := LoadConfig(stored) + FormValues(f);
      && saved.Keys == LoadConfig(stored).Keys
      && (forall k :: k in saved ==> saved[k] == if k in DefaultConfig then FormValues(f)[k] else LoadConfig(stored)[k])
      && LoadConfig(Some(saved)) == saved
  {
    var saved := LoadConfig(stored) + FormValues(f);
    assert LoadConfig(Some(saved)) == DefaultConfig + saved;
    assert (DefaultConfig + saved).Keys == saved.Keys;
  }
}
