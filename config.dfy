/**
 * The configuration module of the first detection layer
 * (`layer2RLdiagnosis-v1/config.py`).
 *
 * The module keeps fourteen named sections, each a dictionary from parameter names to
 * values.  `get_config` hands out those very dictionaries, so `update_config`, which
 * writes through it, changes what every later `get_config` returns.  The model keeps
 * the sections as one field of a `Configuration` object: `GetConfig` is
 * `get_config`, `UpdateConfig` is `update_config`, and the update is proved
 * against the pure update `Updated`.
 */
module Config {

  /** A configuration value: the literal kinds the sections hold. */
  datatype Value =
    | IntValue(i: int)
    | RealValue(r: real)
    | BoolValue(b: bool)
    | TextValue(s: string)
    | NoValue                             // Python `None`
    | Infinity                            // `float('inf')`
    | PairValue(first: int, second: int)
    | Table(entries: map<string, Value>)  // a nested dictionary

  type Section = map<string, Value>
  type Sections = map<string, Section>

  /** The fourteen sections as the module defines them. */
  function Defaults(): Sections
  {
    map[
      "data" := DataSection(),
      "environment" := EnvironmentSection(),
      "rl" := RlSection(),
      "training" := TrainingSection(),
      "model" := ModelSection(),
      "evaluation" := EvaluationSection(),
      "audio" := AudioSection(),
      "features" := FeaturesSection(),
      "logging" := LoggingSection(),
      "visualization" := VisualizationSection(),
      "huggingface" := HuggingfaceSection(),
      "experiment" := ExperimentSection(),
      "validation" := ValidationSection(),
      "performance" := PerformanceSection()]
  }

  /** The `data` section. */
  function DataSection(): Section
  {
    map[
      "sample_rate" := IntValue(16000),
      "segment_duration" := RealValue(10.0),
      "n_mels" := IntValue(64),
      "hop_length" := IntValue(512),
      "feature_dim" := IntValue(64 * 64),
      "train_val_split" := RealValue(0.8),
      "random_seed" := IntValue(42)]
  }

  /** The `environment` section. */
  function EnvironmentSection(): Section
  {
    map[
      "max_episode_length" := IntValue(100),
      "wait_reward" := RealValue(0.0),
      "escalate_penalty" := RealValue(-0.1),
      "n_confidence_bins" := IntValue(10)]
  }

  /** The `rl` section. */
  function RlSection(): Section
  {
    map[
      "algorithm" := TextValue("PPO"),
      "learning_rate" := RealValue(0.0003),
      "n_steps" := IntValue(2048),
      "batch_size" := IntValue(64),
      "n_epochs" := IntValue(10),
      "gamma" := RealValue(0.99),
      "gae_lambda" := RealValue(0.95),
      "clip_range" := RealValue(0.2),
      "ent_coef" := RealValue(0.01),
      "vf_coef" := RealValue(0.5),
      "max_grad_norm" := RealValue(0.5),
      "use_sde" := BoolValue(false),
      "sde_sample_freq" := IntValue(-1),
      "target_kl" := NoValue]
  }

  /** The `training` section. */
  function TrainingSection(): Section
  {
    map[
      "total_timesteps" := IntValue(1000000),
      "eval_freq" := IntValue(50000),
      "checkpoint_freq" := IntValue(100000),
      "n_eval_episodes" := IntValue(100),
      "tensorboard_log" := TextValue("./tensorboard_logs/"),
      "verbose" := IntValue(1)]
  }

  /** The `model` section. */
  function ModelSection(): Section
  {
    map[
      "model_name" := TextValue("apnea-detection-rl"),
      "save_path" := TextValue("./models/"),
      "best_model_path" := TextValue("./best_model/"),
      "checkpoint_path" := TextValue("./checkpoints/"),
      "logs_path" := TextValue("./logs/")]
  }

  /** The `evaluation` section. */
  function EvaluationSection(): Section
  {
    map[
      "n_bins" := IntValue(10),
      "confidence_threshold" := RealValue(0.5),
      "severity_thresholds" := Table(map[
        "normal" := IntValue(5),
        "mild" := IntValue(15),
        "moderate" := IntValue(30),
        "severe" := Infinity])]
  }

  /** The `audio` section. */
  function AudioSection(): Section
  {
    map[
      "resample_rate" := IntValue(16000),
      "segment_overlap" := RealValue(0.0),
      "normalize_audio" := BoolValue(true),
      "preemphasis" := RealValue(0.97),
      "window_type" := TextValue("hann"),
      "n_fft" := IntValue(1024)]
  }

  /** The `features` section. */
  function FeaturesSection(): Section
  {
    map[
      "mel_type" := TextValue("power"),
      "fmin" := IntValue(0),
      "fmax" := IntValue(8000),
      "n_mfcc" := IntValue(13),
      "delta_order" := IntValue(2),
      "normalization_method" := TextValue("standard")]
  }

  /** The `logging` section. */
  function LoggingSection(): Section
  {
    map[
      "log_level" := TextValue("INFO"),
      "log_format" := TextValue("%(asctime)s - %(name)s - %(levelname)s - %(message)s"),
      "log_file" := TextValue("./logs/apnea_detection.log"),
      "console_output" := BoolValue(true),
      "file_output" := BoolValue(true)]
  }

  /** The `visualization` section. */
  function VisualizationSection(): Section
  {
    map[
      "figure_size" := PairValue(15, 12),
      "dpi" := IntValue(300),
      "save_format" := TextValue("png"),
      "style" := TextValue("seaborn-v0_8"),
      "color_palette" := TextValue("husl"),
      "alpha" := RealValue(0.7)]
  }

  /** The `huggingface` section. */
  function HuggingfaceSection(): Section
  {
    map[
      "repo_id" := TextValue("your-username/apnea-detection-rl"),
      "commit_message" := TextValue("Add trained apnea detection model"),
      "model_card_template" := BoolValue(true),
      "push_to_hub" := BoolValue(false)]
  }

  /** The `experiment` section. */
  function ExperimentSection(): Section
  {
    map[
      "use_synthetic_data" := BoolValue(true),
      "synthetic_samples" := IntValue(1000),
      "synthetic_patients" := IntValue(50),
      "enable_wandb" := BoolValue(false),
      "wandb_project" := TextValue("apnea-detection-rl"),
      "wandb_entity" := NoValue]
  }

  /** The `validation` section. */
  function ValidationSection(): Section
  {
    map[
      "cross_validation_folds" := IntValue(5),
      "stratified_splitting" := BoolValue(true),
      "patient_wise_split" := BoolValue(true),
      "test_size" := RealValue(0.2),
      "validation_size" := RealValue(0.1)]
  }

  /** The `performance` section. */
  function PerformanceSection(): Section
  {
    map[
      "num_workers" := IntValue(4),
      "pin_memory" := BoolValue(true),
      "prefetch_factor" := IntValue(2),
      "persistent_workers" := BoolValue(true),
      "use_cuda" := BoolValue(true),
      "mixed_precision" := BoolValue(false)]
  }

  /** The names `get_config` files the sections under. */
  const SectionNames: set<string> :=
    {"data", "environment", "rl", "training", "model", "evaluation", "audio", "features",
     "logging", "visualization", "huggingface", "experiment", "validation", "performance"}

  /** The defaults hold the fourteen sections, and the feature dimension is the 64 by 64
      mel image. */
  lemma DefaultsShape()
    ensures forall s :: s in SectionNames ==> s in Defaults()
    ensures Defaults()["data"]["feature_dim"] == IntValue(4096)
    ensures Defaults()["environment"]["n_confidence_bins"] == IntValue(10)
  {
  }

  /** The defaults hold no section but the fourteen. */
  lemma DefaultsKeys()
    ensures Defaults().Keys == SectionNames
  {
  }

  /** `update_config` writes only where the section exists and already has the key. */
  predicate Updatable(cfg: Sections, name: string, key: string)
  {
    name in cfg && key in cfg[name]
  }

  /** The sections after `update_config(name, key, value)`: the one entry is replaced
      when it exists; otherwise nothing changes.  No section and no key is ever added. */
  function Updated(cfg: Sections, name: string, key: string, value: Value): (r: Sections)
    ensures r.Keys == cfg.Keys
    ensures forall s :: s in cfg ==> r[s].Keys == cfg[s].Keys
    ensures Updatable(cfg, name, key) ==> r[name][key] == value
    ensures forall s, k :: s in cfg && k in cfg[s] && (s != name || k != key) ==> r[s][k] == cfg[s][k]
    ensures !Updatable(cfg, name, key) ==> r == cfg
  {
    if Updatable(cfg, name, key) then cfg[name := cfg[name][key := value]] else cfg
  }

  /** Writing back the value an entry already has changes nothing, and a second write of
      the same value is the same as one. */
  lemma UpdateIdempotent(cfg: Sections, name: string, key: string, value: Value)
    ensures Updatable(cfg, name, key) ==> Updated(cfg, name, key, cfg[name][key]) == cfg
    ensures Updated(Updated(cfg, name, key, value), name, key, value) == Updated(cfg, name, key, value)
  {
    if Updatable(cfg, name, key) {
      assert cfg[name][key := cfg[name][key]] == cfg[name];
      assert cfg[name := cfg[name]] == cfg;
      var once := Updated(cfg, name, key, value);
      assert once[name][key := value] == once[name];
      assert once[name := once[name]] == once;
    }
  }

  /** Updating one entry and then restoring its old value gives back the configuration. */
  lemma UpdateRestores(cfg: Sections, name: string, key: string, value: Value)
    ensures Updatable(cfg, name, key) ==>
      Updated(Updated(cfg, name, key, value), name, key, cfg[name][key]) == cfg
  {
    if Updatable(cfg, name, key) {
      var once := Updated(cfg, name, key, value);
      assert once[name][key := cfg[name][key]] == cfg[name];
      assert once[name := cfg[name]] == cfg;
    }
  }

  /** Writes to two different entries commute. */
  lemma UpdatesCommute(cfg: Sections, n1: string, k1: string, v1: Value, n2: string, k2: string, v2: Value)
    requires n1 != n2 || k1 != k2
    ensures Updated(Updated(cfg, n1, k1, v1), n2, k2, v2) == Updated(Updated(cfg, n2, k2, v2), n1, k1, v1)
  {
    var a := Updated(Updated(cfg, n1, k1, v1), n2, k2, v2);
    var b := Updated(Updated(cfg, n2, k2, v2), n1, k1, v1);
    assert a.Keys == b.Keys;
    forall s | s in a
      ensures a[s] == b[s]
    {
      assert a[s].Keys == b[s].Keys;
    }
  }

  /** Only an existing key of an existing section is accepted: an unknown section or an
      unknown key leaves the defaults as they are. */
  lemma DefaultUpdates()
    ensures Updatable(Defaults(), "environment", "wait_reward")
    ensures !Updatable(Defaults(), "environment", "step_penalty")
    ensures !Updatable(Defaults(), "env", "wait_reward")
  {
  }

  /** The module-level dictionaries that `get_config` returns. */
  class Configuration {
    var sections: Sections

    /** The module as imported: the fourteen default sections. */
    constructor()
      ensures sections == Defaults()
    {
      sections := Defaults();
    }

    /** `get_config`: the sections themselves, so every earlier update is visible. */
    function GetConfig(): Sections
      reads this
    {
      sections
    }

    /** `update_config`: reports whether the section exists and already has the key,
        and in that case writes the value into the shared sections; nothing else
        changes. */
    method UpdateConfig(name: string, key: string, value: Value) returns (updated: bool)
      modifies this
      ensures updated <==> Updatable(old(GetConfig()), name, key)
      ensures GetConfig() == Updated(old(GetConfig()), name, key, value)
      ensures updated ==> GetConfig()[name][key] == value
      ensures !updated ==> GetConfig() == old(GetConfig())
    {
      var config := GetConfig();
      if name in config && key in config[name] {
        sections := config[name := config[name][key := value]];
        return true;
      }
      return false;
    }
  }
}
