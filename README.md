# ITEKA enzyme-kinetics core in Dafny

ITEKA fits enzyme-kinetics rate laws to measured reaction rates and exports
the data and the fits to spreadsheets. This project models its core and proves
properties of the model:

- **The experiment data store** (`calculations/DataStorage.py`):
  - `transform_data`, the number-list parser behind every text box;
  - `OneSubstrate`, a replicate counter with two parallel lists of arrays;
  - `TwoSubstrates`, which keeps for each choice of variable substrate three parallel lists of sets of replicates. It has a role flag `a_is_var` and a write cursor `setindex` over `0..len(sets)`, where `len(sets)` means "open a new set".

  Both stores are classes whose methods change their fields. The two role dictionaries that alias the six lists are two `Role` records selected by the flag.
- **The rate laws** (`calculations/equations/*_eq.py`): the fourteen laws over `real`. Each has its residual function reading the parameter table by name and its factory taking the values by position. The parameter tables, `param_order` and unit symbols are gathered in the `RateLaws` module. `FitParam` (`fitparam.py`) is a class holding the table, the order, the units and the restart count.
- **Fit selection** (`calculations/DataFitting.py`): the random restarts, the choice of the solution with the least sum of squared residuals and its tie-breaking, and the closure attached to the result. The optimiser itself, `lmfit.minimize`, is a function handed in by the caller.
- **The spreadsheet export** (`calculations/ModelsIO.py`): a worksheet is a `Sheet` object with a title and rows of cells, and the export methods append rows in the source's loops. Each method is proved to write what a specification function of the store describes.
- **The store-editing logic of the windows** (`qt_design/widget_windows.py`):
  - data entry: `append_data`, `change_set`, `change_substr_role`, `make_const_conc`;
  - deleting replicates;
  - `adjustvals`, which turns the fit-setup dialog into parameter bounds;
  - the fit drivers `make_fit` and `make_ds_output`.
- **The text-table importer** (`qt_design/__init__.py`): `read_reaction_data`, `add_ds_dataset` and `load_from_table` over a file given as its list of lines.

A copy of `random_start` also sits in `calculations/DataStorage.py:5-12`. It is the same as the one in `calculations/DataFitting.py:11-18`, which `DataFitting.RandomStart` models.

The model follows the code in these places where the documented behaviour differs:
- `make_const_conc` writes `max(1, n)` values for `n` rates. The list starts with the initial concentration even when there are no rates.
- `change_varible` moves the cursor to 0, not to the new-set position.
- `adjustvals` sets the restart count before the bounds check, so a rejected update still changes it.
- The dilution trail the export would read (`Econc`) is never computed anywhere.
- In `append_data` for ITC runs, `make_const_conc` runs outside the `try`. A rate text that does not parse therefore escapes as ValueError.
- The importer stops at a name line that is blank after stripping, the same way it stops at the end of the file.

## Model

| member | source | states |
|---|---|---|
| MichaelisMenten.Residual | calculations/equations/MM_eq.py:5-25 | `mm_function`, which reads `km` and `v_max` by name, equals `create_mm` applied to the table's values in `param_order` order, minus the rate |
| MichaelisMenten.HalfMaxAtKm | calculations/equations/MM_eq.py:13 | at x = km ≠ 0 the predicted rate is v_max·E/2 |
| MichaelisMenten.Saturates | calculations/equations/MM_eq.py:13 | for positive km, v_max, E and x the rate lies strictly between 0 and v_max·E |
| MichaelisMenten.ZeroAtZero | calculations/equations/MM_eq.py:24 | no substrate, no rate |
| Hill.Residual | calculations/equations/HE_eq.py:5-24 | `he_function` equals `create_he(kh, v_max, n)` at the table's values minus the rate; there is no enzyme factor |
| Hill.HalfMax | calculations/equations/HE_eq.py:14 | where xⁿ = kh ≠ 0 the rate is v_max/2 |
| Hill.HillOneIsHyperbolic | calculations/equations/HE_eq.py:23 | with n = 1 the law is v_max·x/(kh + x) |
| CompetitiveInhibition.Residual | calculations/equations/CI_eq.py:5-24 | `my_fiteq` (reading the capitalised `Inh`) equals the factory at the values in `param_order` order minus the rate |
| CompetitiveInhibition.ApparentKm | calculations/equations/CI_eq.py:14 | the inhibitor scales the apparent Km by (1 + inh/ki) |
| CompetitiveInhibition.NoInhibitor | calculations/equations/CI_eq.py:23 | with inh = 0 the law is v_max·x/(km + x) |
| NoncompetitiveInhibition.Residual | calculations/equations/NCI_eq.py:5-24 | the residual equals the factory at the values in `param_order` order minus the rate |
| NoncompetitiveInhibition.ScaledMichaelisMenten | calculations/equations/NCI_eq.py:14 | the rate is the Michaelis–Menten rate divided by (1 + inh/ki) |
| NoncompetitiveInhibition.NoInhibitor | calculations/equations/NCI_eq.py:23 | with inh = 0 the law is v_max·x/(km + x) |
| UncompetitiveInhibition.Residual | calculations/equations/UCI_eq.py:6-26 | the residual, with E, equals the factory at the values in `param_order` order minus the rate |
| UncompetitiveInhibition.NoInhibitor | calculations/equations/UCI_eq.py:25 | with inh = 0 the law is v_max·E·x/(km + x) |
| UncompetitiveInhibition.ZeroAtZero | calculations/equations/UCI_eq.py:15 | no substrate, no rate, for km ≠ 0 |
| MixedInhibition.Residual | calculations/equations/MI_eq.py:5-25 | the residual equals the factory at the values in `param_order` order minus the rate |
| MixedInhibition.NoInhibitor | calculations/equations/MI_eq.py:15 | with inh = 0 the law is v_max·x/(km + x) |
| MixedInhibition.EqualConstantsIsNoncompetitive | calculations/equations/MI_eq.py:24 | with kis = kic the mixed law equals the noncompetitive law |
| SpecificActivation.Residual | calculations/equations/SA_eq.py:5-24 | the residual equals the factory at the values in `param_order` order minus the rate |
| SpecificActivation.TightActivator | calculations/equations/SA_eq.py:14 | with ka = 0 and act ≠ 0 the law is v_max·x/(kms + x) |
| SpecificActivation.NoActivator | calculations/equations/SA_eq.py:23 | with act = 0 and kms·ka ≠ 0 the rate is 0 |
| SubstrateActivation.Residual | calculations/equations/SUA_eq.py:5-23 | the residual equals the factory at the values in `param_order` order minus the rate |
| SubstrateActivation.ZeroAtZero | calculations/equations/SUA_eq.py:13 | no substrate, no rate |
| SubstrateActivation.Bounded | calculations/equations/SUA_eq.py:22 | for positive ksa, ksc, v_max and x the rate lies strictly between 0 and v_max |
| MixedActivation.Residual | calculations/equations/MA_eq.py:5-26 | the residual, with E, equals the factory at the values in `param_order` order minus the rate |
| MixedActivation.ZeroWithoutActivatorOrSubstrate | calculations/equations/MA_eq.py:15 | with act = 0 or x = 0 the rate is 0 |
| MixedActivation.LinearInEnzyme | calculations/equations/MA_eq.py:25 | the rate is E times the rate at E = 1 |
| AllostericInhibition.Residual | calculations/equations/INH_eq.py:5-29 | `ainh_function` equals `create_ainh` at the values in `param_order` order minus the rate |
| AllostericInhibition.ZeroAtZero | calculations/equations/INH_eq.py:28 | no substrate, no rate |
| AllostericInhibition.NoAllostery | calculations/equations/INH_eq.py:18 | with L = 0 and ks + x > 0 the law is v_max·E·x/(ks + x) |
| PingPong.ResidualPpm | calculations/equations/PPM_eq.py:44-62 | `ppm_function(params, a, rate, b)` equals `create_ppm(v_max, kma, kmb)(a, b)` minus the rate |
| PingPong.ResidualPpmsi | calculations/equations/PPM_eq.py:5-24 | `ppmsi_function` equals `create_ppmsi(v_max, kdb, kma, kmb)(a, b)` minus the rate |
| PingPong.InhibitionTerm | calculations/equations/PPM_eq.py:14 | the substrate-inhibited denominator is the ping-pong one plus kma·b²/kdb |
| PingPong.InhibitedIsSlower | calculations/equations/PPM_eq.py:52 | for positive constants and concentrations substrate inhibition gives a strictly lower rate |
| PingPong.Symmetric | calculations/equations/PPM_eq.py:61 | the ping-pong law is unchanged when (a, kma) and (b, kmb) are swapped |
| PingPong.ZeroWithoutSubstrate | calculations/equations/PPM_eq.py:23 | either substrate at 0 gives rate 0, with or without substrate inhibition |
| TernaryComplex.ResidualTc | calculations/equations/TC_eq.py:5-24 | `tc_function` equals `create_tc(v_max, kda, kma, kmb)(a, b)` minus the rate |
| TernaryComplex.ResidualTcsi | calculations/equations/TC_eq.py:44-64 | `tcsi_function` equals `create_tcsi(v_max, kma, kmb, kda, ksib)(a, b)` minus the rate; the factory's different order is the one `param_order` lists |
| TernaryComplex.InhibitionTerm | calculations/equations/TC_eq.py:54 | the substrate-inhibited denominator is the ternary-complex one plus a·b²/ksib |
| TernaryComplex.InhibitedIsSlower | calculations/equations/TC_eq.py:14 | for positive constants and concentrations substrate inhibition gives a strictly lower rate |
| TernaryComplex.ZeroWithoutSubstrate | calculations/equations/TC_eq.py:63 | either substrate at 0 gives rate 0, with or without substrate inhibition |
| RateLaws.Residual | calculations/DataFitting.py:47-64 | for every model, the residual function `fitf` on one point equals the factory `eq` applied to the table's values in `param_order` order, minus the rate |
| RateLaws.ResidualVector | calculations/equations/fitparam.py:25-30 | the vector lmfit minimises has one entry per point: the prediction at the i-th variable (and constant) concentration minus the i-th rate |
| RateLaws.DefaultsFollowOrder | calculations/equations/MM_eq.py:32-37 | every model's default table lists exactly `param_order`, without repeats, one unit symbol each, with value 1 and bounds [0, 100] ([0, 10] for the Hill n) |
| RateLaws.DefaultsNamed | calculations/equations/TC_eq.py:71-83 | the i-th default parameter is named after the i-th `param_order` entry, with value 1, varying, in its default bounds |
| RateLaws.DefaultsDistinct | calculations/equations/INH_eq.py:36-47 | the names of every default table are pairwise distinct |
| RateLaws.UnitSymbolsKnown | calculations/equations/PPM_eq.py:41-42 | every unit symbol of every model is `'c'`, `'r'` or `''` |
| Parameters.IndexOf | calculations/equations/fitparam.py:16 | `params[name]` finds the first parameter of that name, and none when it is absent |
| Parameters.Args | calculations/DataFitting.py:64 | the factory's positional arguments are the values of the `param_order` names, in that order |
| FitParams.ApplyRows | calculations/equations/fitparam.py:18-23 | the first k parameters take new values and bounds; names and length stay |
| FitParams.FirstIndex | calculations/equations/fitparam.py:33 | `list.index`: the first position holding the name, none exactly when it is absent |
| FitParams.GetUnits | calculations/equations/fitparam.py:32-40 | a name outside `param_order` raises ValueError; a first position beyond the unit symbols raises IndexError; otherwise the unit is read from the symbol at the name's first position (`list.index`) |
| FitParams.FitParam.constructor | calculations/equations/MM_eq.py:32-40 | a model class built with defaults holds its default table, `param_order`, units and name, with restart count 0 |
| FitParams.FitParam.Copy | calculations/DataFitting.py:46 | `deepcopy` gives a new object with equal contents |
| FitParams.FitParam.ResetInitializations | calculations/equations/fitparam.py:8-10 | `__int__` sets the restart count to 0 and keeps the parameters |
| FitParams.FitParam.ChangeValue | calculations/equations/fitparam.py:12-16 | only the named parameter's value changes; a missing name raises KeyError and changes nothing |
| FitParams.FitParam.ChangeAll | calculations/equations/fitparam.py:18-23 | the first min(6, len(param_order)) parameters take value and bounds from the rows; too few rows raise IndexError after the earlier rows are applied |
| FitParams.UnitsOfDistinctOrder | calculations/equations/fitparam.py:32-40 | in an order without repeats, the unit of the i-th name comes from the i-th symbol |
| FitParams.ModelUnits | calculations/equations/fitparam.py:32-40 | for every model, each parameter's unit is the concentration unit, the rate unit or `''`, never `None` |
| FitParams.HillCoefficientUnitless | calculations/equations/HE_eq.py:40-41 | the Hill coefficient n has unit `''` |
| DataFitting.WithValues | calculations/DataFitting.py:15-17 | replacing the values keeps names, bounds and length |
| DataFitting.RandomStart | calculations/DataFitting.py:11-18 | every parameter, varying or not, gets a value between its bounds; names and bounds stay, and the same object is returned |
| DataFitting.GetScalingFactor | calculations/DataFitting.py:21-30 | the loop returns 10^k for the exponent the specification function gives |
| DataFitting.FactorIsLeastPower | calculations/DataFitting.py:21-30 | the factor is 10^k with k ≤ 13; k + 1 is the least i in 1..14 with y·10^i > x, and k = 0 when no such i exists |
| DataFitting.Ssr | calculations/DataFitting.py:55 | the sum of squared residuals is never negative |
| DataFitting.FirstMin | calculations/DataFitting.py:55 | `min` with a key picks the first position holding the least key |
| DataFitting.Restarts | calculations/DataFitting.py:54 | one restart run per drawn starting point |
| DataFitting.Candidates | calculations/DataFitting.py:54-55 | the candidates are the N restarts followed by the deterministic run |
| DataFitting.ValuesInOrder | calculations/DataFitting.py:64 | the winning values in `param_order` order, or KeyError exactly when a name is missing |
| DataFitting.FindFit | calculations/DataFitting.py:33-67 | changes nothing it is given; draws exactly N starting points within the bounds; returns the fit the specification gives for them |
| DataFitting.NoRestartsIsDeterministic | calculations/DataFitting.py:47-53 | with no restarts the result is the single run from the current values |
| DataFitting.BestIsMinimal | calculations/DataFitting.py:53-55 | the kept solution has the least sum of squared residuals among all runs, so it is never worse than the deterministic run |
| DataFitting.TieGoesToRestart | calculations/DataFitting.py:55 | when a restart is as good as the deterministic run, the kept solution comes from a restart |
| DataFitting.FitCarriesModel | calculations/DataFitting.py:64-66 | the attached function is the model's factory at the winning values in `param_order` order; the units are the model's |
| Text.Words | calculations/DataStorage.py:20 | `split()`: the words are non-empty and hold no separator |
| Text.CommasAreWhitespace | calculations/DataStorage.py:19-20 | replacing commas by blanks and splitting on whitespace is splitting on commas and whitespace alike |
| Text.StripKeepsWords | calculations/DataStorage.py:20 | `strip()` before `split()` changes no word |
| Text.WordsOfJoin | qt_design/widget_windows.py:209 | words joined with a separator run split back into the same words |
| Numerals.NatRoundTrip | calculations/DataStorage.py:20 | `float(str(n))` is n for every natural n |
| Numerals.OnlyNumeralChars | calculations/DataStorage.py:20 | a token `float` accepts holds only digits, signs, a point and exponent letters |
| Wrappers.PyIndex | qt_design/widget_windows.py:1056 | Python indexing: valid exactly in -n..n-1, negative indices counting from the end |
| Wrappers.RemoveAt | qt_design/widget_windows.py:1056-1057 | `pop(i)` keeps the elements before i and shifts the later ones down by one |
| DataStorage.ParseAll | calculations/DataStorage.py:20 | every token is converted in order, and nothing is returned exactly when some token is not a number |
| DataStorage.TransformData | calculations/DataStorage.py:15-21 | the tokens are the words between commas and whitespace; ValueError exactly when one does not parse; otherwise the values in token order |
| DataStorage.TransformJoinedNaturals | calculations/DataStorage.py:15-21 | naturals joined with `', '` are read back as the same numbers in order |
| DataStorage.TransformOfParsedWords | calculations/DataStorage.py:15-21 | text whose tokens all parse is read as the list of their values |
| DataStorage.OneSubstrate.constructor | calculations/DataStorage.py:28-36 | no replicates, both lists `None`, rate unit `(cunit)/(tunit)` |
| DataStorage.OneSubstrate.Length | calculations/DataStorage.py:38-42 | `len` is the replicate counter, which is the length of both lists |
| DataStorage.OneSubstrate.Pairs | calculations/DataStorage.py:44-46 | iteration yields the (concentrations, rates) pairs; before the first replicate `zip(None, None)` raises TypeError |
| DataStorage.OneSubstrate.AddReplicateValues | calculations/DataStorage.py:48-63 | equal lengths append to both lists and increment the counter, keeping earlier replicates; unequal lengths raise AssertionError and change nothing |
| DataStorage.OneSubstrate.AddReplicate | calculations/DataStorage.py:48-63 | both texts are parsed and compared before any change: a parse error or a length mismatch changes nothing |
| DataStorage.AppendSet | calculations/DataStorage.py:137-150 | a new last set holding the one replicate; earlier sets stay |
| DataStorage.AppendRep | calculations/DataStorage.py:119-135 | set k gains the replicate in all three lists; other sets stay |
| DataStorage.NextIndex | calculations/DataStorage.py:152-159 | `next_set` keeps the cursor in 0..n; it goes to 0 exactly from n, otherwise one forward |
| DataStorage.StepsForward | calculations/DataStorage.py:152-159 | k steps of `next_set` from i with i + k ≤ n reach i + k |
| DataStorage.CursorCycles | calculations/DataStorage.py:152-159 | n + 1 steps of `next_set` visit every position and come back |
| DataStorage.Compose | calculations/DataStorage.py:152-159 | j steps then k steps of `next_set` are j + k steps |
| DataStorage.NewSetState | calculations/DataStorage.py:161-170 | `isnewset` is true exactly at n, false exactly below, and ValueError exactly above |
| DataStorage.SetPoints | calculations/DataStorage.py:210-223 | `get_points`: one triple per set, in set order, each list of replicate arrays concatenated, all three of one length |
| DataStorage.TwoSubstrates.constructor | calculations/DataStorage.py:85-110 | A variable, cursor 0, no data in either role, the names, stoichiometries and units as given |
| DataStorage.TwoSubstrates.GetStochVal | calculations/DataStorage.py:204-208 | `brate` while A is variable, `arate` otherwise |
| DataStorage.TwoSubstrates.ChangeVariable | calculations/DataStorage.py:112-117 | the role flips, the cursor goes to 0 and the data stays; the cursor is at the new-set position exactly when the new role has no sets |
| DataStorage.TwoSubstrates.NextSet | calculations/DataStorage.py:152-159 | the cursor takes one `NextIndex` step and stays in range; nothing else changes |
| DataStorage.TwoSubstrates.SetRole | calculations/DataStorage.py:102-104 | writing through the role dictionaries changes that role's lists only |
| DataStorage.TwoSubstrates.AddSet | calculations/DataStorage.py:137-150 | a parse error (ValueError) or a length mismatch (AssertionError) changes nothing; otherwise the current role gains a one-replicate set, the other role and the cursor stay, and a cursor at the new-set position now points at that set |
| DataStorage.TwoSubstrates.AddRep | calculations/DataStorage.py:119-135 | after parsing and length checks, the replicate goes to set `setpos` (default: the cursor) in all three lists, or IndexError changes none |
| DataStorage.TwoSubstrates.GetLastConst | calculations/DataStorage.py:178-185 | `None` exactly at the new-set position, ValueError exactly beyond it, otherwise the last constant array of the cursor's set |
| DataStorage.TwoSubstrates.GetCurrentVar | calculations/DataStorage.py:187-194 | `None` exactly at the new-set position, ValueError exactly beyond it, otherwise the last variable array of the cursor's set |
| DataStorage.TwoSubstrates.GetRepCount | calculations/DataStorage.py:196-202 | 0 at the new-set position, ValueError beyond it, otherwise the (positive) number of replicates of the cursor's set |
| DataStorage.TwoSubstrates.GetRepres | calculations/DataStorage.py:225-232 | a new `'temp'` single-substrate object with one replicate per set: the set's concatenated variable concentrations against its concatenated rates |
| DataStorage.TwoSubstrates.GetAllPoints | calculations/DataStorage.py:234-246 | the three flat arrays are every set's variable, rate and constant arrays appended in set order, of equal length |
| DataEntry.Trail | qt_design/widget_windows.py:274-277 | the i-th constant concentration is the initial one less stoichiometry·step·(sum of the first i rates), starting with the initial one |
| DataEntry.TrailNonIncreasing | qt_design/widget_windows.py:277 | with nonnegative rates, stoichiometry and step the concentration never rises |
| DataEntry.TrailStep | qt_design/widget_windows.py:277 | each value is the previous one less rate·stoichiometry·step |
| DataEntry.ConstTrail | qt_design/widget_windows.py:275-277 | the loop computes the closed-form trail |
| DataEntry.MakeConstConc | qt_design/widget_windows.py:268-278 | the text is the trail for the current role's stoichiometry, written out; ValueError exactly when the rate text does not parse |
| DataEntry.RepeatedConstMatchesRates | qt_design/widget_windows.py:206-209 | without ITC the constant text parses to the spin-box value once per rate token, as long as the parsed rates |
| DataEntry.Entered | qt_design/widget_windows.py:211-226 | when the three texts parse to one length, a new last set holding the replicate (new-set position) or the replicate appended to set k with the other sets kept; otherwise, the error being caught, the role as it was |
| DataEntry.DisplayedConst | qt_design/widget_windows.py:244-252 | the constant box: nothing at the new-set position, ValueError beyond it, IndexError for an empty latest array, otherwise its first value |
| DataEntry.ChangeSet | qt_design/widget_windows.py:231-258 | the cursor moves with `next_set` unless a replicate was just added; the data stays; what is shown follows the new cursor |
| DataEntry.AppendData | qt_design/widget_windows.py:196-229 | the constant text comes from ITC or the spin box; add to a new set or to the cursor's set, errors caught; the other role and the cursor stay |
| DataEntry.ChangeSubstrRole | qt_design/widget_windows.py:260-266 | the role flips, the data stays, and the cursor ends at 0 when the new role has no sets and at 1 otherwise |
| DataEntry.RemoveReplicate | qt_design/widget_windows.py:1064-1074 | replicate p of set k is popped from all three lists of that set, the other sets unchanged; a set it empties is popped from all three lists instead; the replicate count drops by one; an index out of range raises IndexError |
| DataEntry.ShiftKeepsCursor | qt_design/widget_windows.py:1063-1075 | with the cursor moved back past a removed set, a cursor in range stays in range and keeps pointing at its set or at the new-set position |
| DataEntry.DeleteStrandsCursor | qt_design/widget_windows.py:1063-1075 | deleting the only set leaves cursor 1 over no sets, where `isnewset` raises; the shifted cursor is the new-set position |
| DataEntry.DeletePointsAsWritten | qt_design/widget_windows.py:1063-1075 | the replicate, and a set it empties, are removed from the chosen role; the cursor is left as it was |
| DataEntry.DeletePoints | qt_design/widget_windows.py:1063-1075 | the same removal, with a cursor after a removed set moved back, so a cursor in range stays in range |
| DataEntry.DeletePointsSingle | qt_design/widget_windows.py:1052-1061 | with replicates, the selected one is popped from both lists, which stay lists (empty after the last, never `None`), and the counter drops by one, or IndexError for an index out of range; with none, nothing changes |
| FitDriver.BoundRows | qt_design/widget_windows.py:482-488 | the rows of the spin boxes, with -inf for unchecked lower and +inf for unchecked upper bounds |
| FitDriver.Pin | qt_design/widget_windows.py:498-505 | a fixed parameter stops varying and takes the value, with finite bounds strictly around it; any other parameter varies |
| FitDriver.PinAll | qt_design/widget_windows.py:495-505 | the pinning loop keeps names and length and treats each covered parameter as `Pin` says |
| FitDriver.AdjustVals | qt_design/widget_windows.py:477-505 | the restart count is set first; a failed margins check leaves the table; otherwise `change_all` then pinning |
| FitDriver.PinFixed | qt_design/widget_windows.py:495-505 | the loop gives the table `PinAll` describes |
| FitDriver.AcceptedBoundsOrdered | qt_design/widget_windows.py:489-505 | after an accepted update every covered parameter has its lower bound strictly below its upper one |
| FitDriver.RestartsHaveFiniteBounds | qt_design/widget_windows.py:478-488 | random restarts survive only with both bounds checked, so the bounds are finite |
| FitDriver.HStack | qt_design/widget_windows.py:517-518 | `np.hstack`: TypeError on `None`, ValueError on an empty list, otherwise the concatenation |
| FitDriver.PooledPointsPair | qt_design/widget_windows.py:514-518 | pooled concentrations and rates are equally many |
| FitDriver.MakeFitSingle | qt_design/widget_windows.py:514-520 | the pooled data is fitted once; a stacking error is returned as such |
| FitDriver.SetPointsFit | qt_design/widget_windows.py:528-530 | every set's (var, rate, const) triple is a point list any law accepts |
| FitDriver.FitSets | qt_design/widget_windows.py:528-530 | one fit per set in set order, each the `find_fit` result for the starts it drew; a raising fit stops the list |
| FitDriver.FitWindow.constructor | qt_design/widget_windows.py:368 | the window starts with no set fits |
| FitDriver.FitWindow.MakeFitDouble | qt_design/widget_windows.py:524-534 | `-1` replaces the list by one fit per set; another index refits that set alone and replaces only its entry; bad indices raise IndexError and keep the list |
| FitDriver.MakeDsOutput | qt_design/widget_windows.py:891-897 | the sets with A variable are fitted, then those with B variable, keyed by `True` and `False`; otherwise the error is the first failing set's, A's sets before B's |
| TableImport.Handle.ReadLine | qt_design/__init__.py:270 | `readline` gives the next line, or `''` exactly at the end of the file |
| TableImport.RowsFrom | qt_design/__init__.py:279-283 | the rows are the whitespace-split lines in order, up to a blank line (consumed, not kept) or the end of the file |
| TableImport.Transpose | qt_design/__init__.py:285 | `zip(*rows)`: as many columns as the shortest row has entries, column j holding entry j of every row |
| TableImport.TransposeTwice | qt_design/__init__.py:285 | for rows of one length transposing twice gives the rows back |
| TableImport.RaggedRowsTruncate | qt_design/__init__.py:285 | a ragged block loses the entries past its shortest row |
| TableImport.ReadBlock | qt_design/__init__.py:269-288 | reading always advances unless the file is depleted |
| TableImport.ReadReactionData | qt_design/__init__.py:269-288 | the loop reads the block `ReadBlock` describes; a data block has a column count divisible by 3 |
| TableImport.ReadRows | qt_design/__init__.py:279-283 | the line loop collects the rows `RowsFrom` describes |
| TableImport.Joined | qt_design/__init__.py:259 | each column is joined with spaces |
| TableImport.ColumnTextParses | qt_design/__init__.py:259 | a column of numerals joined with spaces parses back to its numbers in order |
| TableImport.Check | calculations/DataStorage.py:141-146 | a replicate is accepted exactly when all three texts parse and have one length; otherwise ValueError for a parse error, else AssertionError |
| TableImport.Replicates | qt_design/__init__.py:261-266 | the k-th replicate is the k-th column triple, checked |
| TableImport.Place | qt_design/__init__.py:262-266 | the first replicate opens a new last set holding exactly it; a later one is appended to all three lists of the cursor's set, the other sets unchanged, or raises IndexError |
| TableImport.Fold | qt_design/__init__.py:258-267 | loading replicates one after another never removes a set |
| TableImport.BlockFromNewSet | qt_design/__init__.py:258-267 | from the new-set position a block that loads becomes one new last set whose j-th replicate is the block's j-th column triple, earlier sets untouched, and `next_set` returns to the new-set position |
| TableImport.EmptyBlockWrapsCursor | qt_design/__init__.py:258-267 | an empty block loads nothing and `next_set` wraps the cursor to 0 |
| TableImport.AddDsDatasetAsWritten | qt_design/__init__.py:258-267 | a block of three or more columns raises TypeError at the `setname` keyword, and one of one or two columns raises IndexError at `vals[i + 1]`/`vals[i + 2]`, both with nothing changed; only an empty block reaches `next_set` |
| TableImport.LoadTriple | qt_design/__init__.py:262-266 | one `add_set` or `add_rep` call changes the current role as `Place` says, or raises and changes nothing |
| TableImport.AddDsDataset | qt_design/__init__.py:258-267 | the block's triples load in order up to the first that raises; otherwise `next_set` follows |
| TableImport.AddTexts | qt_design/__init__.py:261-266 | the loop over the column texts loads what `Fold` describes |
| TableImport.LoadTriples | qt_design/__init__.py:261-266 | the triples in order, stopping at the first that raises, as `Fold` describes |
| TableImport.LoadStep | qt_design/__init__.py:262-266 | one more triple is one more step of `Fold` |
| TableImport.FailureStays | qt_design/__init__.py:261-266 | once a replicate has raised, later ones change nothing |
| TableImport.ReadHeader | qt_design/__init__.py:293-299 | the five stripped header lines become the store's name, substrate names and units; not ITC, stoichiometries 1 |
| TableImport.LoadFromTable | qt_design/__init__.py:290-311 | with `add_ds_dataset` corrected: the header fields as read, a cursor in range, not ITC, after loading blocks until depletion or error |
| ModelsIO.Workbook.constructor | calculations/ModelsIO.py:82 | a new workbook holds one empty default sheet |
| ModelsIO.Workbook.NewTab | calculations/ModelsIO.py:4-11 | a new empty sheet with the title, added last |
| ModelsIO.Workbook.DropFirst | calculations/ModelsIO.py:88 | the default first sheet is dropped |
| ModelsIO.TitleRow | calculations/ModelsIO.py:18-21 | the loop builds the replicate title row |
| ModelsIO.TitleRowCells | calculations/ModelsIO.py:18-21 | the title row has w cells per replicate: `'Replicate i'`, then blanks |
| ModelsIO.HeaderCells | calculations/ModelsIO.py:24-26 | the header row repeats one replicate's column names once per replicate |
| ModelsIO.LawCell | calculations/ModelsIO.py:117 | the prediction is a number exactly where the law's denominator is nonzero |
| ModelsIO.BoundCell | calculations/ModelsIO.py:124-125 | an infinite bound is written as its text and a finite one as a number |
| ModelsIO.UpperInfinityAsWritten | calculations/ModelsIO.py:124-125 | as written, an upper +inf stays a float infinity, unlike the corrected cell; -inf is text in both |
| ModelsIO.ParamRows | calculations/ModelsIO.py:122-126 | one row per fitted parameter, in table order |
| ModelsIO.UntilRaised | calculations/ModelsIO.py:122-126 | appending the first k rows one by one writes at most k of them |
| ModelsIO.ParamRowOfModel | calculations/ModelsIO.py:126 | a parameter of the law's `param_order` gets the row [name, value, bounds, unit] without raising |
| ModelsIO.ParamRowsOfModel | calculations/ModelsIO.py:122-126 | for a table following the law's `param_order`, the loop completes and writes the whole `ParamTable` |
| ModelsIO.OutputParams | calculations/ModelsIO.py:122-126 | the parameter loop appends the rows up to the first `get_units` that raises |
| ModelsIO.AppendUntilRaised | calculations/ModelsIO.py:122-126 | appending rows one by one ends at the first that raises |
| ModelsIO.SsNames | calculations/ModelsIO.py:24-25 | one replicate's column names fill the replicate's width: two columns, three for a fit |
| ModelsIO.MaxLen | calculations/ModelsIO.py:29 | `max` of the lengths: at least every length, and equal to one of them |
| ModelsIO.PointCells | calculations/ModelsIO.py:33-37 | a replicate's cells in one data row fill the replicate's width, so the columns of later replicates stay aligned |
| ModelsIO.SsDataRows | calculations/ModelsIO.py:29-38 | one data row per point of the longest replicate |
| ModelsIO.PointRow | calculations/ModelsIO.py:31-37 | the row loop builds `SsRow` |
| ModelsIO.OutputPoints | calculations/ModelsIO.py:29-38 | the data-row loop appends `SsDataRows` |
| ModelsIO.OutputSs | calculations/ModelsIO.py:14-38 | title and header rows, then `SsRest`, whose outcome is returned |
| ModelsIO.OutputSsRest | calculations/ModelsIO.py:107-126 | `max` raises TypeError before the first replicate and ValueError when all are deleted; otherwise the body |
| ModelsIO.OutputTop | calculations/ModelsIO.py:96-105 | the replicate title row and the header row |
| ModelsIO.OutputSsBody | calculations/ModelsIO.py:107-126 | the data rows, then for a fit the heading rows and the parameter rows |
| ModelsIO.DsNames | calculations/ModelsIO.py:57-59 | one replicate's column names fill the replicate's width: three columns, four for a fit |
| ModelsIO.DsCells | calculations/ModelsIO.py:66 | a replicate's cells at a point fill the replicate's width, three cells or four with the prediction |
| ModelsIO.DsDataRows | calculations/ModelsIO.py:63-67 | one row per point up to the shortest replicate |
| ModelsIO.SetsWritten | calculations/ModelsIO.py:147 | `zip` over sets and fits writes as many sets as both have |
| ModelsIO.DsSets | calculations/ModelsIO.py:47-68 | one block of rows per set written: every set for data, as many as `zip` pairs with fits |
| ModelsIO.DsPointRow | calculations/ModelsIO.py:64-67 | the row of point p, or IndexError when a replicate has no point p |
| ModelsIO.OutputDsPoints | calculations/ModelsIO.py:63-67 | appends `DsDataRows` and raises IndexError exactly when a replicate is shorter than the first |
| ModelsIO.OutputDsSetRest | calculations/ModelsIO.py:62-68 | a set's data rows, then an empty row or the fit's parameter table |
| ModelsIO.OutputDsParamTail | calculations/ModelsIO.py:170-179 | an empty row, the parameter table and two empty rows unless `get_units` raised |
| ModelsIO.OutputDsSet | calculations/ModelsIO.py:48-68 | one set's name, title, header and rest |
| ModelsIO.OutputDsSets | calculations/ModelsIO.py:47-68 | set after set until one raises, as `DsSheet` describes |
| ModelsIO.OutputDsSubgroup | calculations/ModelsIO.py:41-68 | `output_ds_subgroup` writes `DsSheet` of that role without predictions |
| ModelsIO.Predictions | calculations/ModelsIO.py:147 | one prediction per fit, each its `fit.function` |
| ModelsIO.OutputFitSubgroup | calculations/ModelsIO.py:136-179 | KeyError without fits for the subgroup; otherwise the sets with predictions and parameter tables |
| ModelsIO.ExportSs | calculations/ModelsIO.py:84-85 | one new tab with the single-substrate output |
| ModelsIO.ExportDs | calculations/ModelsIO.py:71-75 | the A tab, then unless it raised the B tab |
| ModelsIO.SubgroupTab | calculations/ModelsIO.py:72-75 | a tab titled after the variable substrate, holding that subgroup's sheet |
| ModelsIO.OutputSubgroup | calculations/ModelsIO.py:129-133 | the data or fit output of one subgroup |
| ModelsIO.DataToXls | calculations/ModelsIO.py:78-89 | the tabs written are those `DataExport` describes, the default sheet dropped on completion |
| ModelsIO.FitToXls | calculations/ModelsIO.py:182-193 | the tabs written are those `FitExport` describes |
| ModelsIO.SsDataCells | calculations/ModelsIO.py:33-37 | replicate i's cells in data row d: concentration and rate, or two blanks once it ran out |
| ModelsIO.SsFitCells | calculations/ModelsIO.py:112-117 | replicate i's cells in fit row d: concentration, rate and `fit.function` there, or three blanks |
| ModelsIO.SsFitKeepsData | calculations/ModelsIO.py:102-117 | the fit sheet's first two cells of each replicate equal the data sheet's |
| ModelsIO.SsFitComplete | calculations/ModelsIO.py:107-126 | a fit following the law's `param_order` is written in full: data rows, heading rows, one row per parameter |
| ModelsIO.DsDataCells | calculations/ModelsIO.py:66 | replicate i's cells at point p: variable and constant concentration and rate |
| ModelsIO.DsFitCells | calculations/ModelsIO.py:166-168 | replicate i's fit cells: the three measured values and `fit.function(var, const)` |
| ModelsIO.DsFitKeepsData | calculations/ModelsIO.py:157-168 | the fit sheet's first three cells of each replicate equal the data sheet's |
| ModelsIO.DsSetRaises | calculations/ModelsIO.py:63-66 | a replicate shorter than the first stops the set with IndexError after the common rows; for data that is the only way a set raises |
| ModelsIO.ChainPrefix | calculations/ModelsIO.py:47-68 | later sets only add rows after the earlier ones |
| ModelsIO.ChainOutcome | calculations/ModelsIO.py:147-179 | the sets complete exactly when each does; otherwise the outcome is the first failure's |
| ModelsIO.DsSheetStart | calculations/ModelsIO.py:147-161 | a subgroup sheet with a set starts with `'Set 1'`, the title row and the header row |
| ModelsIO.EconcMissing | calculations/ModelsIO.py:143 | as written nothing is written and AttributeError is raised; the corrected output starts with the first set's rows |

## Left out

- Floating point: all numbers are exact `real`s. Laws carry nonzero-denominator preconditions, and numpy's `inf`/`nan` from a zero division appears only as the non-finite export cell.
- `lmfit.minimize` is a function parameter (`Minimizer`). Its convergence, and the parameter bounds it respects, are not modelled.
- `random.uniform` is a nondeterministic choice between the bounds. A restart with an infinite bound is excluded by the preconditions of `FindFit` and the fit drivers.
- `os.environ['Eval']` (E) and the non-integer power `**` are an `Env` value passed in. Lemmas that need a power law take it as a precondition.
- `str(float)` in the data-entry window is a formatting function parameter `show`.
- Numerals.ParseNumber accepts only an optional sign, ASCII digits with an optional fraction, and an optional exponent. Python's `float` also accepts `inf`, `nan`, `infinity`, underscores between digits and non-ASCII decimal digits (such as Arabic-Indic digits); such tokens are rejected here.
- `res_sum` and `get_const_mean` are float statistics used only for display.
- `get_solution`'s call to lmfit is captured only through `RateLaws.ResidualVector`.
- Qt dialogs, widgets, labels, plots, file dialogs, pickle, directory creation and `wb.save` are left out. What a widget shows or holds is a parameter or a result.
- `print("Error, Missformat")` in `load_from_table` has no effect on the store and is left out.
- The file read by `load_from_table` is its list of lines.
- ModelsIO.OutputSs: requires a single-substrate law for a fit. `fit.function(x)` with one argument on a two-substrate factory raises TypeError, which is not modelled.
- ModelsIO.FitToXls: requires the data kind and the fit kind to match (single store with one fit, two-substrate store with per-set fits), and the two-substrate fits to be keyed by both `True` and `False`, as `make_ds_output` always builds them. The KeyError of a missing key is modelled only in `OutputFitSubgroup`.
- ModelsIO.ExportDs: requires both subgroups' fits, as in `FitToXls`.
- ModelsIO.ParamRows: the parameter rows are computed as values before the loop appends them. The loop still stops at the first row whose `get_units` raises.
- TableImport.LoadFromTable: states the header fields and that the cursor stays in range, not the sets loaded. Each block's effect is stated by `AddDsDataset` and `BlockFromNewSet`.
- TableImport.LoadFromTable: loads through the corrected `AddDsDataset`. As written (qt_design/__init__.py:263), the first block with a column triple raises TypeError, and `self.reaction_data` is never assigned (line 311). `AddDsDatasetAsWritten` models that half.
- FitDriver.AcceptedBoundsOrdered: holds over exact reals. In double precision, `value ± 1e-13` rounds back to `value` once |value| reaches 1024, so a fixed parameter such as v_max = 5000 gets equal lower and upper bounds.
- ModelsIO.ParamRows: uses the corrected `BoundCell`, so an unchecked upper bound is written as the text `inf`. The program writes the float +inf there (calculations/ModelsIO.py:125 and :176); `BoundCellAsWritten` models that half.
- ModelsIO.OutputParams: writes its parameter table through `ParamRows`, so an unchecked upper bound appears as the text `inf`, as corrected, and not as the program's float +inf.
- ModelsIO.OutputSsBody: writes its parameter table through `ParamRows`, so an unchecked upper bound appears as the text `inf`, as corrected, and not as the program's float +inf.
- ModelsIO.OutputDsParamTail: writes its parameter table through `ParamRows`, so an unchecked upper bound appears as the text `inf`, as corrected, and not as the program's float +inf.
- ModelsIO.OutputFitSubgroup: writes its parameter table through `ParamRows`, so an unchecked upper bound appears as the text `inf`, as corrected, and not as the program's float +inf.
- ModelsIO.ExportSs: writes its parameter table through `ParamRows`, so an unchecked upper bound appears as the text `inf`, as corrected, and not as the program's float +inf.
- ModelsIO.FitToXls: writes its parameter table through `ParamRows`, so an unchecked upper bound appears as the text `inf`, as corrected, and not as the program's float +inf.
- ModelsIO.OutputFitSubgroup: also models the corrected prediction. As written, line 143 raises AttributeError before any row; `EconcMissing` models that half.
- TableImport.AddDsDataset: requires a column count divisible by three, which `read_reaction_data`'s assertion guarantees before the call.
- `display_name`, `select_type` and `PointsView`'s combo-box refreshes only change widgets.
- The other windows' plotting and solution-exploring code is also left out.

## Findings

| source | as written | input that shows it | evidently intended | confidence | as-written member | corrected member |
|---|---|---|---|---|---|---|
| qt_design/__init__.py:263 | `add_set(..., setname=name)`, but `add_set` (calculations/DataStorage.py:137) declares no `setname`, so it raises TypeError | any table with one block of three columns | the first triple opens a set without a name | high, not executed | TableImport.AddDsDatasetAsWritten | TableImport.AddDsDataset |
| calculations/ModelsIO.py:143 | `exp_data.Econc[subgroup]`, which `TwoSubstrates` never defines, so AttributeError is raised | any two-substrate fit export | the predicted rate is `fit.function(var, const)` with no enzyme column | high, not executed | ModelsIO.EconcMissing | ModelsIO.OutputFitSubgroup |
| calculations/ModelsIO.py:125 | the upper bound is compared with `-inf`, so `+inf` is written as a float, not as text; line 176 repeats the same test for two-substrate fits | a fit with the upper bound unchecked (`+inf`) | an infinite upper bound written as the text `inf`, like the lower `-inf` | high, not executed | ModelsIO.UpperInfinityAsWritten | ModelsIO.BoundCell |
| qt_design/widget_windows.py:1063-1075 | deleting a set never adjusts `setindex`, so the cursor can end beyond the sets and `isnewset` raises ValueError | one set with one replicate, cursor at 1, delete it | a cursor after the removed set moves back by one | high, not executed | DataEntry.DeleteStrandsCursor | DataEntry.DeletePoints |
