/** The output schema of the reshaper: three ordered lists of column names,
    fixed when the program is written. */
module Schema {

  /** `staticColumns` are copied under their own name; `plotStems` and
      `pipeStems` are the stems of repeated columns, read from
      `<stem>_<i>` and written under `<stem>`. */
  datatype Config = Config(staticColumns: seq<string>, plotStems: seq<string>, pipeStems: seq<string>)

  /** The stem whose indexed columns decide which repeat groups exist. */
  const PlotIdStem: string := "this_plot_id"

  /** The prefix a column name must start with to take part in index
      discovery. */
  const PlotIdPrefix: string := "this_plot_id_"

  /** `static_cols`, one constant per line of its definition (lines 12-22). */
  const Statics1: seq<string> := ["submissiondate", "q1_enum_name", "calc_date", "calc_start_time", "village_name"]
  const Statics2: seq<string> := ["farmer_id", "farmer_name", "phone_number", "total_acres", "plots", "sowing_date"]
  const Statics3: seq<string> := ["transplant_date", "harvest_date", "no_of_plots", "name_cnf", "phone_reenter"]
  const Statics4: seq<string> := ["alt_phone", "b4_plot_serials", "total_plots", "first_visit", "a1_sowing_cnf"]
  const Statics5: seq<string> := ["a2a_sw_date", "a2b_sw_date", "a3_dsr", "a4_dsr_type", "a7_seed", "a7_seed_oth"]
  const Statics6: seq<string> := ["a8_duration", "a9_training", "b1_area_cnf", "b2_area_enter", "b2_area_enter_1"]
  const Statics7: seq<string> := ["b2_area_enter_2", "b2_enter_acres", "b2_enter_guntas", "b3_plots_cnf"]
  const Statics8: seq<string> := ["d10_window", "d11_window_end", "d12_rain", "d13_tillering", "d14_uneven"]
  const Statics9: seq<string> := ["fertilizer_date", "e1_window", "e2_dw_date", "e3_dw_number", "e4_fruits_id"]
  const Statics10: seq<string> := ["comments", "instanceid", "formdef_version", "key", "date_only", "date_num"]
  const Statics11: seq<string> := ["dup_flag", "visit_gap", "daily_unique_farmers", "depth", "drying_event"]

  const StaticColumns: seq<string> :=
    Statics1 + Statics2 + Statics3 + Statics4 + Statics5 + Statics6 +
    Statics7 + Statics8 + Statics9 + Statics10 + Statics11

  const PlotStems: seq<string> := [
    "this_plot_id", "this_plot_label1", "w3w_link", "w3w_latlong", "to_be_updated",
    "message", "w3w_okay", "new_plot_entr", "new_w3w_link", "scto_lat", "scto_lon",
    "scto_alt", "scto_acc", "final_w3w_link", "w3w_corrected"
  ]

  const PipeStems: seq<string> := [
    "this_plot_id2", "this_plot_label2", "b8a_plot_awd", "b8b_plot_dsr",
    "b9_field_dsr_indi", "b9_field_dsr_indi_1", "b9_field_dsr_indi_2",
    "b9_field_dsr_indi_3", "b9_field_dsr_indi_4", "b9_field_dsr_indi__996",
    "b9_oth", "awd_plot", "dsr_plot", "c1_pipe_status", "c2_pipe_distance",
    "pipe_image", "d1_soil", "d2_soil_removal", "d3_wl_status", "d4_wl_above",
    "d5_wl_below", "d5_pipe_image", "d6_pipeslatitude", "d6_pipeslongitude",
    "d6_pipesaltitude", "d6_pipesaccuracy", "d8_puddles", "d9_cracks"
  ]

  /** The schema `transform_wide_to_long` uses. */
  const Default: Config := Config(StaticColumns, PlotStems, PipeStems)

  /** In the shipped schema the plot id is read from the plot group, and
      the discovery prefix is the plot id stem followed by `_`. */
  lemma DefaultPlotIdStem()
    ensures PlotIdStem in Default.plotStems
    ensures PlotIdPrefix == PlotIdStem + "_"
  {
    assert Default.plotStems[0] == PlotIdStem;
  }

  /** No name of `line` occurs in `stems`. */
  predicate Apart(line: seq<string>, stems: seq<string>) {
    forall a, b | 0 <= a < |line| && 0 <= b < |stems| :: line[a] != stems[b]
  }

  lemma Statics1NotStems()
    ensures Apart(Statics1, PlotStems) && Apart(Statics1, PipeStems)
  {
  }

  lemma Statics2NotStems()
    ensures Apart(Statics2, PlotStems) && Apart(Statics2, PipeStems)
  {
  }

  lemma Statics3NotStems()
    ensures Apart(Statics3, PlotStems) && Apart(Statics3, PipeStems)
  {
  }

  lemma Statics4NotStems()
    ensures Apart(Statics4, PlotStems) && Apart(Statics4, PipeStems)
  {
  }

  lemma Statics5NotStems()
    ensures Apart(Statics5, PlotStems) && Apart(Statics5, PipeStems)
  {
  }

  lemma Statics6NotStems()
    ensures Apart(Statics6, PlotStems) && Apart(Statics6, PipeStems)
  {
  }

  lemma Statics7NotStems()
    ensures Apart(Statics7, PlotStems) && Apart(Statics7, PipeStems)
  {
  }

  lemma Statics8NotStems()
    ensures Apart(Statics8, PlotStems) && Apart(Statics8, PipeStems)
  {
  }

  lemma Statics9NotStems()
    ensures Apart(Statics9, PlotStems) && Apart(Statics9, PipeStems)
  {
  }

  lemma Statics10NotStems()
    ensures Apart(Statics10, PlotStems) && Apart(Statics10, PipeStems)
  {
  }

  lemma Statics11NotStems()
    ensures Apart(Statics11, PlotStems) && Apart(Statics11, PipeStems)
  {
  }

  /** No static column of the shipped schema is also a stem of either
      group, so no stem overrides a static field. */
  lemma DefaultDisjoint()
    ensures forall c | c in Default.staticColumns :: c !in Default.plotStems && c !in Default.pipeStems
  {
    forall c | c in StaticColumns ensures c !in PlotStems && c !in PipeStems {
      if c in Statics1 { Statics1NotStems(); }
      else if c in Statics2 { Statics2NotStems(); }
      else if c in Statics3 { Statics3NotStems(); }
      else if c in Statics4 { Statics4NotStems(); }
      else if c in Statics5 { Statics5NotStems(); }
      else if c in Statics6 { Statics6NotStems(); }
      else if c in Statics7 { Statics7NotStems(); }
      else if c in Statics8 { Statics8NotStems(); }
      else if c in Statics9 { Statics9NotStems(); }
      else if c in Statics10 { Statics10NotStems(); }
      else { Statics11NotStems(); }
    }
  }
}
