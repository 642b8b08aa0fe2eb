# NeuroSeeker probe configuration, in Dafny

This project models the configuration core of the NeuroSeeker probe driver
and its Bonsai front end, and proves properties of that model.

- **Shift-register configuration.** The probe's configuration lives in six
  channel-configuration chains and one general-configuration chain. Each
  chain holds 240 channels, 12 ADCs and 6 ADC pairs.
  - `ChannelConfig.ChannelConfiguration` models one chain: its fixed arrays
    `dmux`, `channelSettings`, `adcComp` and `adcCommon`, plus `dmuxExt`.
  - `AllChannelConfig.AllChannelConfigurations` owns the six chains. It
    routes the global numbers of channels (0..1439), ADCs (0..71) and pairs
    (0..35) to a chain and a local index.
  - `GeneralConfig.GeneralConfiguration` holds the twelve switches and the
    13 bias-pixel-enable bits.

  Every accessor returns the error code that its header documents: a bad
  index, a bad value, or a bad chain number.
- **Channel table reader.** `CsvParser` covers the quoting state machine of
  `CSVParser::readCSVRow` and the line splitting of `readCSV`. It also has
  the four label tables and the class that turns each row into
  reference, gain, mode and bandwidth codes.
- **Driver glue.** `NskCDll` covers three things:
  - the inactive-channel predicate;
  - the region and channel loops of `NSK_Configure`, and its test-mode
    branch together with the matching branch of `NSK_Close`;
  - the channel-major sample buffer filled by `NSK_Read` and
    `NSK_Read_File`.
- **Chain CSV helpers.** `ChainCsv` models the template functions that
  write chains to CSV text and read them back.
- **Bonsai operators.** `ProbeMap` is the eight-row de-interleaving of
  `ApplyProbeMap`. `IplImageTexture` covers `NearestPowerOfTwo` over 32-bit
  words and the texture-size and pixel-format choices of `Update`.

Two shared pieces hold no source logic of their own. `FlatIndex` is
row-major index arithmetic. `Wrappers` is an `Option` type.

The configuration headers declare their members without bodies, so the
model follows their documentation comments. The chain, ADC and pair counts
(6, 1440, 72, 36) come from `NeuroseekerConstants.h`. The routing of global
numbers is private and its body is not part of the headers. The model
assumes `n / perChain` and `n % perChain` for it, and proves that this
routing is a bijection (`AllChannelConfig.RoutingLeftInverse`,
`AllChannelConfig.RoutingRightInverse`). The routed accessors use the
`n / perChain` and `n % perChain` definitions directly to show that their
indices are in range.

## Model

| member | source | states |
|---|---|---|
| ChannelConfig.ErrorCode.Code | Externals/NSK_API/Headers/V1.8/ChannelConfiguration.h:15-25 | the seven error codes are 0..6, and the code is 0 exactly for SUCCESS |
| ChannelConfig.RefSelCodeRoundTrip | Externals/NSK_API/Headers/V1.8/ChannelConfiguration.h:40-46 | a RefSel value and its code 0..3 convert back and forth without loss |
| ChannelConfig.ChannelConfiguration.constructor | Externals/NSK_API/Headers/V1.8/ChannelConfiguration.h:102 | the new chain holds the given default state and the given external-reference flag |
| ChannelConfig.ChannelConfiguration.Reset | Externals/NSK_API/Headers/V1.8/ChannelConfiguration.h:118-121 | after reset, the whole chain state equals the defaults |
| ChannelConfig.ChannelConfiguration.GetChannelConfigFromChain | Externals/NSK_API/Headers/V1.8/ChannelConfiguration.h:123-133 | the result is SR_ERROR exactly when the shift register fails, ILLEGAL_CHAIN_VALUE exactly when the chain does not decode, and otherwise SUCCESS, with the state set to the decoded one; on either error the state is unchanged |
| ChannelConfig.ChannelConfiguration.GetChain | Externals/NSK_API/Headers/V1.8/ChannelConfiguration.h:135-144 | the result is SR_ERROR exactly on a shift-register failure; otherwise it is SUCCESS with a chain of 3106 bits that encodes the current state |
| ChannelConfig.ChannelConfiguration.GetRefSel | Externals/NSK_API/Headers/V1.8/ChannelConfiguration.h:146-157 | local channel 0..239 gives SUCCESS and that channel's refSel; any other channel gives CHANNEL_OUT_OF_RANGE |
| ChannelConfig.ChannelConfiguration.SetRefSel | Externals/NSK_API/Headers/V1.8/ChannelConfiguration.h:159-170 | channel 0..239 gives SUCCESS and changes that channel's refSel and nothing else; any other channel gives CHANNEL_OUT_OF_RANGE and changes nothing |
| ChannelConfig.ChannelConfiguration.GetDmuxSel | Externals/NSK_API/Headers/V1.8/ChannelConfiguration.h:172-183 | channel 0..239 gives SUCCESS and its dmuxSel; any other channel gives CHANNEL_OUT_OF_RANGE |
| ChannelConfig.ChannelConfiguration.SetDmuxSel | Externals/NSK_API/Headers/V1.8/ChannelConfiguration.h:185-196 | channel 0..239 changes only that dmuxSel; any other channel gives CHANNEL_OUT_OF_RANGE and changes nothing |
| ChannelConfig.ChannelConfiguration.GetBw | Externals/NSK_API/Headers/V1.8/ChannelConfiguration.h:198-210 | channel 0..239 gives SUCCESS and its bandwidth code, which is at most 3; any other channel gives CHANNEL_OUT_OF_RANGE |
| ChannelConfig.ChannelConfiguration.SetBw | Externals/NSK_API/Headers/V1.8/ChannelConfiguration.h:212-226 | a bad channel gives CHANNEL_OUT_OF_RANGE; a value above 3 gives ILLEGAL_WRITE_VALUE; on success only that channel's bw changes, and on failure nothing does |
| ChannelConfig.ChannelConfiguration.GetMode | Externals/NSK_API/Headers/V1.8/ChannelConfiguration.h:228-240 | channel 0..239 gives SUCCESS and its mode; any other channel gives CHANNEL_OUT_OF_RANGE |
| ChannelConfig.ChannelConfiguration.SetMode | Externals/NSK_API/Headers/V1.8/ChannelConfiguration.h:242-253 | channel 0..239 changes only that mode; any other channel gives CHANNEL_OUT_OF_RANGE and changes nothing |
| ChannelConfig.ChannelConfiguration.GetGain | Externals/NSK_API/Headers/V1.8/ChannelConfiguration.h:255-267 | channel 0..239 gives SUCCESS and its gain code, which is at most 7; any other channel gives CHANNEL_OUT_OF_RANGE |
| ChannelConfig.ChannelConfiguration.SetGain | Externals/NSK_API/Headers/V1.8/ChannelConfiguration.h:269-283 | a bad channel gives CHANNEL_OUT_OF_RANGE; a gain above 7 gives ILLEGAL_WRITE_VALUE; on success only that gain changes, and on failure nothing does |
| ChannelConfig.ChannelConfiguration.GetStdb | Externals/NSK_API/Headers/V1.8/ChannelConfiguration.h:285-297 | channel 0..239 gives SUCCESS and its standby bit; any other channel gives CHANNEL_OUT_OF_RANGE |
| ChannelConfig.ChannelConfiguration.SetStdb | Externals/NSK_API/Headers/V1.8/ChannelConfiguration.h:299-311 | channel 0..239 changes only that standby bit; any other channel gives CHANNEL_OUT_OF_RANGE and changes nothing |
| ChannelConfig.ChannelConfiguration.GetCompP | Externals/NSK_API/Headers/V1.8/ChannelConfiguration.h:313-324 | ADC 0..11 gives SUCCESS and a compP of at most 63; any other ADC gives ADC_OUT_OF_RANGE |
| ChannelConfig.ChannelConfiguration.SetCompP | Externals/NSK_API/Headers/V1.8/ChannelConfiguration.h:326-339 | a bad ADC gives ADC_OUT_OF_RANGE; a value above 63 gives ILLEGAL_WRITE_VALUE; on success only that compP changes, and on failure nothing does |
| ChannelConfig.ChannelConfiguration.SetAllCompP | Externals/NSK_API/Headers/V1.8/ChannelConfiguration.h:341-350 | a value of at most 63 is written to all 12 ADCs, leaving each compN as it was; a larger value gives ILLEGAL_WRITE_VALUE and changes nothing |
| ChannelConfig.ChannelConfiguration.GetCompN | Externals/NSK_API/Headers/V1.8/ChannelConfiguration.h:352-363 | ADC 0..11 gives SUCCESS and a compN of at most 63; any other ADC gives ADC_OUT_OF_RANGE |
| ChannelConfig.ChannelConfiguration.SetCompN | Externals/NSK_API/Headers/V1.8/ChannelConfiguration.h:365-378 | a bad ADC gives ADC_OUT_OF_RANGE; a value above 63 gives ILLEGAL_WRITE_VALUE; on success only that compN changes, and on failure nothing does |
| ChannelConfig.ChannelConfiguration.SetAllCompN | Externals/NSK_API/Headers/V1.8/ChannelConfiguration.h:380-389 | a value of at most 63 is written to all 12 ADCs; a larger value gives ILLEGAL_WRITE_VALUE and changes nothing |
| ChannelConfig.ChannelConfiguration.GetSlope | Externals/NSK_API/Headers/V1.8/ChannelConfiguration.h:391-403 | pair 0..5 gives SUCCESS and a slope of at most 7; any other pair gives ADC_OUT_OF_RANGE |
| ChannelConfig.ChannelConfiguration.SetSlope | Externals/NSK_API/Headers/V1.8/ChannelConfiguration.h:405-419 | a bad pair gives ADC_OUT_OF_RANGE; a value above 7 gives ILLEGAL_WRITE_VALUE; on success only that slope changes, and on failure nothing does |
| ChannelConfig.ChannelConfiguration.GetFine | Externals/NSK_API/Headers/V1.8/ChannelConfiguration.h:421-433 | pair 0..5 gives SUCCESS and a fine value of at most 7; any other pair gives ADC_OUT_OF_RANGE |
| ChannelConfig.ChannelConfiguration.SetFine | Externals/NSK_API/Headers/V1.8/ChannelConfiguration.h:435-449 | a bad pair gives ADC_OUT_OF_RANGE; a value above 7 gives ILLEGAL_WRITE_VALUE; on success only that fine value changes |
| ChannelConfig.ChannelConfiguration.GetCoarse | Externals/NSK_API/Headers/V1.8/ChannelConfiguration.h:451-463 | pair 0..5 gives SUCCESS and a coarse value of at most 7; any other pair gives ADC_OUT_OF_RANGE |
| ChannelConfig.ChannelConfiguration.SetCoarse | Externals/NSK_API/Headers/V1.8/ChannelConfiguration.h:465-479 | a bad pair gives ADC_OUT_OF_RANGE; a value above 7 gives ILLEGAL_WRITE_VALUE; on success only that coarse value changes |
| ChannelConfig.ChannelConfiguration.GetCfix | Externals/NSK_API/Headers/V1.8/ChannelConfiguration.h:481-493 | pair 0..5 gives SUCCESS and a cfix of at most 7; any other pair gives ADC_OUT_OF_RANGE |
| ChannelConfig.ChannelConfiguration.SetCfix | Externals/NSK_API/Headers/V1.8/ChannelConfiguration.h:495-509 | a bad pair gives ADC_OUT_OF_RANGE; a value above 7 gives ILLEGAL_WRITE_VALUE; on success only that cfix changes |
| ChannelConfig.ChannelConfiguration.SetAllBw | Externals/NSK_API/Headers/V1.8/ChannelConfiguration.h:511-519 | a bandwidth of at most 3 reaches all 240 channels, and only their bw changes; a larger one gives ILLEGAL_WRITE_VALUE and changes nothing |
| ChannelConfig.ChannelConfiguration.SetAllMode | Externals/NSK_API/Headers/V1.8/ChannelConfiguration.h:521-528 | the mode reaches all 240 channels, and the result is SUCCESS |
| ChannelConfig.ChannelConfiguration.SetAllGain | Externals/NSK_API/Headers/V1.8/ChannelConfiguration.h:530-539 | a gain of at most 7 reaches all 240 channels; a larger one gives ILLEGAL_WRITE_VALUE and changes nothing |
| ChannelConfig.ChannelConfiguration.SetAllStdb | Externals/NSK_API/Headers/V1.8/ChannelConfiguration.h:541-548 | the standby bit reaches all 240 channels, and the result is SUCCESS |
| ChannelConfig.ChannelConfiguration.SetAllRefSel | Externals/NSK_API/Headers/V1.8/ChannelConfiguration.h:550-558 | every non-reference channel gets the refSel; every reference channel keeps its own |
| ChannelConfig.ChannelConfiguration.SetAllDmuxSel | Externals/NSK_API/Headers/V1.8/ChannelConfiguration.h:560-567 | the dmuxSel reaches all 240 channels, and the result is SUCCESS |
| ChannelConfig.ChannelConfiguration.SetSlopeCal | Externals/NSK_API/Headers/V1.8/ChannelConfiguration.h:569-585 | on success, pair n gets the slope, fine and coarse values and keeps its cfix; on failure the other pairs are unchanged and pair n holds, field by field, the old or the new value |
| ChannelConfig.ChannelConfiguration.SetAllSlopeCal | Externals/NSK_API/Headers/V1.8/ChannelConfiguration.h:587-598 | three values of at most 7 reach all six pairs, each keeping its cfix; otherwise the result is ILLEGAL_WRITE_VALUE |
| ChannelConfig.ChannelConfiguration.SetAllCfix | Externals/NSK_API/Headers/V1.8/ChannelConfiguration.h:600-608 | a cfix of at most 7 reaches all six pairs; a larger one gives ILLEGAL_WRITE_VALUE and changes nothing |
| ChannelConfig.ChannelConfiguration.GetAdcPair | Externals/NSK_API/Headers/V1.8/ChannelConfiguration.h:610-622 | pair 0..5 gives SUCCESS and a record whose four fields are in range; any other pair gives ADC_OUT_OF_RANGE |
| ChannelConfig.ChannelConfiguration.SetAdcPair | Externals/NSK_API/Headers/V1.8/ChannelConfiguration.h:624-637 | a legal record becomes exactly pair n, so getAdcPair returns it; a bad pair number or field fails and leaves the other pairs unchanged |
| ChannelConfig.ChannelConfiguration.GetAdcComp | Externals/NSK_API/Headers/V1.8/ChannelConfiguration.h:639-650 | ADC 0..11 gives SUCCESS and a record with both offsets at most 63; any other ADC gives ADC_OUT_OF_RANGE |
| ChannelConfig.ChannelConfiguration.SetAdcComp | Externals/NSK_API/Headers/V1.8/ChannelConfiguration.h:652-664 | a legal record becomes exactly ADC n, so getAdcComp returns it; a bad ADC number or offset fails and leaves the other ADCs unchanged |
| ChannelConfig.ChannelConfiguration.Equals | Externals/NSK_API/Headers/V1.8/ChannelConfiguration.h:107-116 | equality holds if and only if every member is equal |
| ChannelConfig.ChannelConfiguration.NotEquals | Externals/NSK_API/Headers/V1.8/ChannelConfiguration.h:698-707 | two configurations are unequal exactly when their states or their external-reference flags differ |
| ChannelConfig.EqualsIsEquivalence | Externals/NSK_API/Headers/V1.8/ChannelConfiguration.h:692-696 | member-wise equality is reflexive, symmetric and transitive |
| AllChannelConfig.RoutingLeftInverse | Externals/NSK_API/Headers/V1.8/AllChannelConfigurations.h:820-840 | going from a global number to (chain, local) and back gives the same number |
| AllChannelConfig.RoutingRightInverse | Externals/NSK_API/Headers/V1.8/AllChannelConfigurations.h:820-840 | going from (chain, local) to a global number and back gives the same pair |
| AllChannelConfig.RoutingInRange | Externals/NSK_API/Headers/V1.8/AllChannelConfigurations.h:820-840 | a global number is in range exactly when its chain is one of the six |
| AllChannelConfig.RoutingInjective | Externals/NSK_API/Headers/V1.8/AllChannelConfigurations.h:820-840 | two global numbers with the same chain and the same local index are equal |
| AllChannelConfig.AllChannelConfigurations.constructor | Externals/NSK_API/Headers/V1.8/AllChannelConfigurations.h:842 | the six owned chains are separate objects, and each holds the defaults |
| AllChannelConfig.AllChannelConfigurations.Reset | Externals/NSK_API/Headers/V1.8/AllChannelConfigurations.h:35-38 | after reset, every one of the six chains holds the defaults |
| AllChannelConfig.AllChannelConfigurations.GetAllChannelConfigsFromChains | Externals/NSK_API/Headers/V1.8/AllChannelConfigurations.h:40-52 | SUCCESS holds exactly when every chain reads without a shift-register error and decodes; then chain k holds the decoded state k. On failure there is a first failing chain k: SR_ERROR exactly when k had a register error, chains before k hold their decoded states, and chains k..5 are unchanged |
| AllChannelConfig.FirstFailureUnique | Externals/NSK_API/Headers/V1.8/AllChannelConfigurations.h:40-52 | the first failing chain is unique, so the failure contract determines which chains were loaded |
| AllChannelConfig.AllChannelConfigurations.GetChains | Externals/NSK_API/Headers/V1.8/AllChannelConfigurations.h:54-64 | the result is SR_ERROR exactly when some chain's register fails; otherwise it gives six chains of 3106 bits, each encoding the state of its chain |
| AllChannelConfig.AllChannelConfigurations.GetAvgL1 | Externals/NSK_API/Headers/V1.8/AllChannelConfigurations.h:66-79 | chain 0..5 gives that chain's avgL1; any other chain number gives ILLEGAL_CHANNELCONFIG |
| AllChannelConfig.AllChannelConfigurations.SetAvgL1 | Externals/NSK_API/Headers/V1.8/AllChannelConfigurations.h:81-94 | chain 0..5 changes only that chain's avgL1; any other number gives ILLEGAL_CHANNELCONFIG; the other chains never change |
| AllChannelConfig.AllChannelConfigurations.GetAvgL2 | Externals/NSK_API/Headers/V1.8/AllChannelConfigurations.h:96-109 | chain 0..5 gives that chain's avgL2; any other chain number gives ILLEGAL_CHANNELCONFIG |
| AllChannelConfig.AllChannelConfigurations.SetAvgL2 | Externals/NSK_API/Headers/V1.8/AllChannelConfigurations.h:111-124 | chain 0..5 changes only that chain's avgL2; any other number gives ILLEGAL_CHANNELCONFIG |
| AllChannelConfig.AllChannelConfigurations.GetBypassSc | Externals/NSK_API/Headers/V1.8/AllChannelConfigurations.h:126-139 | chain 0..5 gives that chain's bypassSc; any other chain number gives ILLEGAL_CHANNELCONFIG |
| AllChannelConfig.AllChannelConfigurations.SetBypassSc | Externals/NSK_API/Headers/V1.8/AllChannelConfigurations.h:141-154 | chain 0..5 changes only that chain's bypassSc; any other number gives ILLEGAL_CHANNELCONFIG |
| AllChannelConfig.AllChannelConfigurations.GetRefSel | Externals/NSK_API/Headers/V1.8/AllChannelConfigurations.h:156-167 | global channel 0..1439 gives the refSel of its routed chain and local channel; 1440 and above give CHANNEL_OUT_OF_RANGE |
| AllChannelConfig.AllChannelConfigurations.SetRefSel | Externals/NSK_API/Headers/V1.8/AllChannelConfigurations.h:169-180 | the write reaches exactly the routed channel of one chain; the other five chains are unchanged; an out-of-range channel changes nothing |
| AllChannelConfig.AllChannelConfigurations.GetDmuxSel | Externals/NSK_API/Headers/V1.8/AllChannelConfigurations.h:182-193 | global channel 0..1439 gives its routed dmuxSel; other channels give CHANNEL_OUT_OF_RANGE |
| AllChannelConfig.AllChannelConfigurations.SetDmuxSel | Externals/NSK_API/Headers/V1.8/AllChannelConfigurations.h:195-206 | the write reaches exactly the routed channel; the other chains are unchanged |
| AllChannelConfig.AllChannelConfigurations.GetBw | Externals/NSK_API/Headers/V1.8/AllChannelConfigurations.h:208-220 | global channel 0..1439 gives its routed bandwidth code, which is at most 3; other channels give CHANNEL_OUT_OF_RANGE |
| AllChannelConfig.AllChannelConfigurations.SetBw | Externals/NSK_API/Headers/V1.8/AllChannelConfigurations.h:222-236 | a bad channel gives CHANNEL_OUT_OF_RANGE and a value above 3 gives ILLEGAL_WRITE_VALUE; on success only the routed channel's bw changes |
| AllChannelConfig.AllChannelConfigurations.GetMode | Externals/NSK_API/Headers/V1.8/AllChannelConfigurations.h:238-250 | global channel 0..1439 gives its routed mode; other channels give CHANNEL_OUT_OF_RANGE |
| AllChannelConfig.AllChannelConfigurations.SetMode | Externals/NSK_API/Headers/V1.8/AllChannelConfigurations.h:252-263 | the write reaches exactly the routed channel; the other chains are unchanged |
| AllChannelConfig.AllChannelConfigurations.GetGain | Externals/NSK_API/Headers/V1.8/AllChannelConfigurations.h:265-277 | global channel 0..1439 gives its routed gain code, which is at most 7; other channels give CHANNEL_OUT_OF_RANGE |
| AllChannelConfig.AllChannelConfigurations.SetGain | Externals/NSK_API/Headers/V1.8/AllChannelConfigurations.h:279-293 | a bad channel gives CHANNEL_OUT_OF_RANGE and a gain above 7 gives ILLEGAL_WRITE_VALUE; on success only the routed gain changes |
| AllChannelConfig.AllChannelConfigurations.GetStdb | Externals/NSK_API/Headers/V1.8/AllChannelConfigurations.h:295-307 | global channel 0..1439 gives its routed standby bit; other channels give CHANNEL_OUT_OF_RANGE |
| AllChannelConfig.AllChannelConfigurations.SetStdb | Externals/NSK_API/Headers/V1.8/AllChannelConfigurations.h:309-321 | the write reaches exactly the routed channel; the other chains are unchanged |
| AllChannelConfig.AllChannelConfigurations.GetCompP | Externals/NSK_API/Headers/V1.8/AllChannelConfigurations.h:323-334 | global ADC 0..71 gives its routed compP; other ADCs give ADC_OUT_OF_RANGE |
| AllChannelConfig.AllChannelConfigurations.SetCompP | Externals/NSK_API/Headers/V1.8/AllChannelConfigurations.h:336-349 | a bad ADC gives ADC_OUT_OF_RANGE and a value above 63 gives ILLEGAL_WRITE_VALUE; on success only the routed ADC changes |
| AllChannelConfig.AllChannelConfigurations.SetAllCompP | Externals/NSK_API/Headers/V1.8/AllChannelConfigurations.h:351-360 | a value of at most 63 reaches the 72 ADCs of all six chains; a larger one gives ILLEGAL_WRITE_VALUE and changes nothing |
| AllChannelConfig.AllChannelConfigurations.GetCompN | Externals/NSK_API/Headers/V1.8/AllChannelConfigurations.h:362-373 | global ADC 0..71 gives its routed compN; other ADCs give ADC_OUT_OF_RANGE |
| AllChannelConfig.AllChannelConfigurations.SetCompN | Externals/NSK_API/Headers/V1.8/AllChannelConfigurations.h:375-388 | a bad ADC gives ADC_OUT_OF_RANGE and a value above 63 gives ILLEGAL_WRITE_VALUE; on success only the routed ADC changes |
| AllChannelConfig.AllChannelConfigurations.SetAllCompN | Externals/NSK_API/Headers/V1.8/AllChannelConfigurations.h:390-399 | a value of at most 63 reaches all 72 ADCs; a larger one gives ILLEGAL_WRITE_VALUE and changes nothing |
| AllChannelConfig.AllChannelConfigurations.GetSlope | Externals/NSK_API/Headers/V1.8/AllChannelConfigurations.h:401-413 | global pair 0..35 gives its routed slope; other pairs give ADC_OUT_OF_RANGE, the same code as for ADCs |
| AllChannelConfig.AllChannelConfigurations.SetSlope | Externals/NSK_API/Headers/V1.8/AllChannelConfigurations.h:415-429 | a bad pair gives ADC_OUT_OF_RANGE and a value above 7 gives ILLEGAL_WRITE_VALUE; on success only the routed pair changes |
| AllChannelConfig.AllChannelConfigurations.GetFine | Externals/NSK_API/Headers/V1.8/AllChannelConfigurations.h:431-443 | global pair 0..35 gives its routed fine value; other pairs give ADC_OUT_OF_RANGE |
| AllChannelConfig.AllChannelConfigurations.SetFine | Externals/NSK_API/Headers/V1.8/AllChannelConfigurations.h:445-459 | a bad pair or a value above 7 fails; on success only the routed pair changes |
| AllChannelConfig.AllChannelConfigurations.GetCoarse | Externals/NSK_API/Headers/V1.8/AllChannelConfigurations.h:461-473 | global pair 0..35 gives its routed coarse value; other pairs give ADC_OUT_OF_RANGE |
| AllChannelConfig.AllChannelConfigurations.SetCoarse | Externals/NSK_API/Headers/V1.8/AllChannelConfigurations.h:475-489 | a bad pair or a value above 7 fails; on success only the routed pair changes |
| AllChannelConfig.AllChannelConfigurations.GetCfix | Externals/NSK_API/Headers/V1.8/AllChannelConfigurations.h:491-503 | global pair 0..35 gives its routed cfix; other pairs give ADC_OUT_OF_RANGE |
| AllChannelConfig.AllChannelConfigurations.SetCfix | Externals/NSK_API/Headers/V1.8/AllChannelConfigurations.h:505-519 | a bad pair or a value above 7 fails; on success only the routed pair changes |
| AllChannelConfig.AllChannelConfigurations.SetAllBwOfChannelConfig | Externals/NSK_API/Headers/V1.8/AllChannelConfigurations.h:521-537 | chain 0..5 gets the bandwidth on all its 240 channels; a bad chain gives ILLEGAL_CHANNELCONFIG, a bad value ILLEGAL_WRITE_VALUE; the other chains never change |
| AllChannelConfig.AllChannelConfigurations.SetAllModeOfChannelConfig | Externals/NSK_API/Headers/V1.8/AllChannelConfigurations.h:539-553 | chain 0..5 gets the mode on all 240 channels; a bad chain gives ILLEGAL_CHANNELCONFIG |
| AllChannelConfig.AllChannelConfigurations.SetAllGainOfChannelConfig | Externals/NSK_API/Headers/V1.8/AllChannelConfigurations.h:555-570 | chain 0..5 gets the gain on all 240 channels; a bad chain or gain fails with its own code |
| AllChannelConfig.AllChannelConfigurations.SetAllStdbOfChannelConfig | Externals/NSK_API/Headers/V1.8/AllChannelConfigurations.h:572-585 | chain 0..5 gets the standby bit on all 240 channels; a bad chain gives ILLEGAL_CHANNELCONFIG |
| AllChannelConfig.AllChannelConfigurations.SetAllRefSelOfChannelConfig | Externals/NSK_API/Headers/V1.8/AllChannelConfigurations.h:587-601 | chain 0..5 gets the refSel on its non-reference channels only; a bad chain gives ILLEGAL_CHANNELCONFIG |
| AllChannelConfig.AllChannelConfigurations.SetAllDmuxSelOfChannelConfig | Externals/NSK_API/Headers/V1.8/AllChannelConfigurations.h:603-616 | chain 0..5 gets the dmuxSel on all 240 channels; a bad chain gives ILLEGAL_CHANNELCONFIG |
| AllChannelConfig.AllChannelConfigurations.SetAllBw | Externals/NSK_API/Headers/V1.8/AllChannelConfigurations.h:618-626 | a bandwidth of at most 3 reaches all 1440 channels; a larger one gives ILLEGAL_WRITE_VALUE and changes nothing |
| AllChannelConfig.AllChannelConfigurations.SetAllMode | Externals/NSK_API/Headers/V1.8/AllChannelConfigurations.h:628-635 | the mode reaches all 1440 channels |
| AllChannelConfig.AllChannelConfigurations.SetAllGain | Externals/NSK_API/Headers/V1.8/AllChannelConfigurations.h:637-646 | a gain of at most 7 reaches all 1440 channels; a larger one gives ILLEGAL_WRITE_VALUE and changes nothing |
| AllChannelConfig.AllChannelConfigurations.SetAllStdb | Externals/NSK_API/Headers/V1.8/AllChannelConfigurations.h:648-655 | the standby bit reaches all 1440 channels |
| AllChannelConfig.AllChannelConfigurations.SetAllRefSel | Externals/NSK_API/Headers/V1.8/AllChannelConfigurations.h:657-665 | every non-reference channel of every chain gets the refSel; reference channels keep theirs |
| AllChannelConfig.AllChannelConfigurations.SetAllDmuxSel | Externals/NSK_API/Headers/V1.8/AllChannelConfigurations.h:667-674 | the dmuxSel reaches all 1440 channels |
| AllChannelConfig.AllChannelConfigurations.SetSlopeCal | Externals/NSK_API/Headers/V1.8/AllChannelConfigurations.h:676-692 | on success, the routed pair gets slope, fine and coarse and keeps its cfix; the other chains never change |
| AllChannelConfig.AllChannelConfigurations.SetAllSlopeCal | Externals/NSK_API/Headers/V1.8/AllChannelConfigurations.h:694-705 | three values of at most 7 reach all 36 pairs, each keeping its cfix; otherwise the result is ILLEGAL_WRITE_VALUE |
| AllChannelConfig.AllChannelConfigurations.SetAllCfix | Externals/NSK_API/Headers/V1.8/AllChannelConfigurations.h:707-715 | a cfix of at most 7 reaches all 36 pairs; a larger one gives ILLEGAL_WRITE_VALUE and changes nothing |
| AllChannelConfig.AllChannelConfigurations.GetAdcPair | Externals/NSK_API/Headers/V1.8/AllChannelConfigurations.h:717-729 | global pair 0..35 gives its routed record; other pairs give ADC_OUT_OF_RANGE |
| AllChannelConfig.AllChannelConfigurations.SetAdcPair | Externals/NSK_API/Headers/V1.8/AllChannelConfigurations.h:731-744 | a legal record becomes exactly the routed pair; the other chains never change |
| AllChannelConfig.AllChannelConfigurations.GetAllAdcPairs | Externals/NSK_API/Headers/V1.8/AllChannelConfigurations.h:746-756 | the 36 pairs come back in global pair order |
| AllChannelConfig.AllChannelConfigurations.SetAllAdcPairs | Externals/NSK_API/Headers/V1.8/AllChannelConfigurations.h:758-769 | if all 36 records are legal, global pair n becomes record n; otherwise the result is ILLEGAL_WRITE_VALUE and each pair holds, field by field, its old value or the new one |
| AllChannelConfig.AllChannelConfigurations.AdcPairsRoundTrip | Externals/NSK_API/Headers/V1.8/AllChannelConfigurations.h:746-769 | writing 36 records and reading them back succeeds exactly when all are legal, and then gives the same 36 records |
| AllChannelConfig.AllChannelConfigurations.GetAdcComp | Externals/NSK_API/Headers/V1.8/AllChannelConfigurations.h:771-782 | global ADC 0..71 gives its routed record; other ADCs give ADC_OUT_OF_RANGE |
| AllChannelConfig.AllChannelConfigurations.SetAdcComp | Externals/NSK_API/Headers/V1.8/AllChannelConfigurations.h:784-796 | a legal record becomes exactly the routed ADC; the other chains never change |
| AllChannelConfig.AllChannelConfigurations.GetAllAdcComps | Externals/NSK_API/Headers/V1.8/AllChannelConfigurations.h:798-807 | the 72 records come back in global ADC order |
| AllChannelConfig.AllChannelConfigurations.SetAllAdcComps | Externals/NSK_API/Headers/V1.8/AllChannelConfigurations.h:809-818 | if all 72 records are legal, global ADC n becomes record n |
| AllChannelConfig.AllChannelConfigurations.AdcCompsRoundTrip | Externals/NSK_API/Headers/V1.8/AllChannelConfigurations.h:798-818 | writing 72 records and reading them back succeeds exactly when all are legal, and then gives the same records |
| AllChannelConfig.AllChannelConfigurations.BwRoundTrip | Externals/NSK_API/Headers/V1.8/AllChannelConfigurations.h:208-236 | after a successful setBw at a global channel, getBw at that channel returns the value written |
| AllChannelConfig.AllChannelConfigurations.Equals | Externals/NSK_API/Headers/V1.8/AllChannelConfigurations.h:24-33 | equality holds if and only if all six owned chains are equal |
| AllChannelConfig.AllChannelConfigurations.NotEquals | Externals/NSK_API/Headers/V1.8/AllChannelConfigurations.h:845-854 | inequality is exactly the negation of equality |
| AllChannelConfig.AllEqualsIsEquivalence | Externals/NSK_API/Headers/V1.8/AllChannelConfigurations.h:24-33 | device equality is reflexive, symmetric and transitive |
| GeneralConfig.ErrorCode.Code | Externals/NSK_API/Headers/V1.8/GeneralConfiguration.h:18-23 | the three codes are 0..2, and the code is 0 exactly for SUCCESS |
| GeneralConfig.SameSwitches | Externals/NSK_API/Headers/V1.8/GeneralConfiguration.h:31-40 | comparing the twelve switches one by one is the same as comparing the whole record |
| GeneralConfig.SameMembers | Externals/NSK_API/Headers/V1.8/GeneralConfiguration.h:31-40 | comparing the switches and the 13 bias bits is the same as comparing the whole state |
| GeneralConfig.GeneralConfiguration.constructor | Externals/NSK_API/Headers/V1.8/GeneralConfiguration.h:113-127 | the new configuration holds the defaults, with 13 bias bits |
| GeneralConfig.GeneralConfiguration.Reset | Externals/NSK_API/Headers/V1.8/GeneralConfiguration.h:42-45 | after reset, the state equals the defaults |
| GeneralConfig.GeneralConfiguration.GetGeneralConfigFromChain | Externals/NSK_API/Headers/V1.8/GeneralConfiguration.h:47-56 | the result is only SUCCESS or SR_ERROR, SR_ERROR exactly on a register failure; on success the state is the decoded one, and on SR_ERROR it is unchanged |
| GeneralConfig.GeneralConfiguration.GetChain | Externals/NSK_API/Headers/V1.8/GeneralConfiguration.h:58-67 | the result is only SUCCESS or SR_ERROR; on success the chain has 53 bits and encodes the state |
| GeneralConfig.GeneralConfiguration.GetBiasPixEnBit | Externals/NSK_API/Headers/V1.8/GeneralConfiguration.h:69-78 | index 0..12 gives that bit; any other index gives RANGE_ERROR |
| GeneralConfig.GeneralConfiguration.SetBiasPixEnBit | Externals/NSK_API/Headers/V1.8/GeneralConfiguration.h:80-89 | index 0..12 changes that bit alone, so the getter returns it, and the other bits and all switches are unchanged; any other index gives RANGE_ERROR and changes nothing |
| GeneralConfig.GeneralConfiguration.GetTestInputEnBit | Externals/NSK_API/Headers/V1.8/GeneralConfiguration.h:91-98 | the result is always SUCCESS, and the bit is freqGlobal |
| GeneralConfig.GeneralConfiguration.SetTestInputEnBit | Externals/NSK_API/Headers/V1.8/GeneralConfiguration.h:100-107 | the result is always SUCCESS; freqGlobal becomes the bit and nothing else changes |
| GeneralConfig.GeneralConfiguration.Equals | Externals/NSK_API/Headers/V1.8/GeneralConfiguration.h:31-40 | equality holds if and only if all twelve switches and all 13 bias bits are equal |
| GeneralConfig.GeneralConfiguration.NotEquals | Externals/NSK_API/Headers/V1.8/GeneralConfiguration.h:131-140 | two configurations are unequal exactly when their states differ |
| CsvParser.RowFields | NeuroSeeker_C_DLL/CSVParser.cpp:48 | a row always has at least one field |
| CsvParser.ReadCsvRow | NeuroSeeker_C_DLL/CSVParser.cpp:45-89 | the loop over the characters returns the fields of the three-state scan of the row |
| CsvParser.RunConcat | NeuroSeeker_C_DLL/CSVParser.cpp:50-87 | scanning a + b is scanning b from the state reached after scanning a |
| CsvParser.FieldCount | NeuroSeeker_C_DLL/CSVParser.cpp:54-76 | the number of fields is 1 plus the number of commas met in the unquoted or just-closed-quote state |
| CsvParser.UnquotedRow | NeuroSeeker_C_DLL/CSVParser.cpp:52-61 | a row without `"` splits at every comma: the fields hold no comma, and joining them with commas gives the row back |
| CsvParser.SplitIsUnique | NeuroSeeker_C_DLL/CSVParser.cpp:52-61 | two comma-free field lists with the same join are equal, so the split of an unquoted row is the only one |
| CsvParser.OpeningQuoteNotStored | NeuroSeeker_C_DLL/CSVParser.cpp:57 | a `"` in the unquoted state enters the quoted state and adds nothing to the field |
| CsvParser.CharAfterClosingQuoteDropped | NeuroSeeker_C_DLL/CSVParser.cpp:81-83 | after a closing quote, a character other than `,` or `"` is dropped and the unquoted state resumes |
| CsvParser.EscapedRun | NeuroSeeker_C_DLL/CSVParser.cpp:63-80 | inside a quoted field, a comma is data and a doubled `""` adds one `"`: the escaped text adds exactly the original word |
| CsvParser.QuotedRun | NeuroSeeker_C_DLL/CSVParser.cpp:57-80 | a quoted, escaped word adds exactly that word to the current field |
| CsvParser.RowRoundTrip | NeuroSeeker_C_DLL/CSVParser.cpp:45-89 | formatting any fields as quoted, escaped CSV and scanning the row gives back the same fields |
| CsvParser.ScanWithinLine | NeuroSeeker_C_DLL/CSVParser.cpp:97-104 | text without a newline only extends the unfinished line |
| CsvParser.ScanLine | NeuroSeeker_C_DLL/CSVParser.cpp:97-104 | a newline-terminated line adds one complete line |
| CsvParser.LinesOfTerminated | NeuroSeeker_C_DLL/CSVParser.cpp:93-106 | the lines of newline-terminated lines followed by an unterminated tail are exactly those lines, in order; the tail is dropped |
| CsvParser.GetLine | NeuroSeeker_C_DLL/CSVParser.cpp:98 | getline returns the text up to the next delimiter and moves past it, or the rest of the text when there is no delimiter |
| CsvParser.Table | NeuroSeeker_C_DLL/CSVParser.cpp:93-106 | the table has one row per complete line, and row i is the scan of line i |
| CsvParser.ReadCsv | NeuroSeeker_C_DLL/CSVParser.cpp:93-106 | the getline loop builds exactly that table |
| CsvParser.RefSelOf | NeuroSeeker_C_DLL/CSVParser.cpp:111-121 | a listed label gives its RefSel; any other string gives REF_SEL_NONE, the value a missing key is given |
| CsvParser.GainOf | NeuroSeeker_C_DLL/CSVParser.cpp:123-137 | the gain code is in 0..7, and an unknown string gives 0 |
| CsvParser.ModeOf | NeuroSeeker_C_DLL/CSVParser.cpp:139-147 | the mode is true exactly for "AP"; "LFP" and every unknown string give false |
| CsvParser.BwOf | NeuroSeeker_C_DLL/CSVParser.cpp:149-159 | the bandwidth code is in 0..3, and an unknown string gives 0 |
| CsvParser.RefSelTableInCodeOrder | NeuroSeeker_C_DLL/CSVParser.cpp:111-121 | the table maps exactly REF_SEL_NONE, EXT, L1, L2 to codes 0, 1, 2, 3 |
| CsvParser.GainTableInCodeOrder | NeuroSeeker_C_DLL/CSVParser.cpp:123-137 | the table maps exactly "50", "125", "250", "500", "1000", "1500", "2000", "2500" to 0..7 |
| CsvParser.BwTableInCodeOrder | NeuroSeeker_C_DLL/CSVParser.cpp:149-159 | the table maps exactly "300", "500", "NA", "1000" to 0..3 |
| CsvParser.LabelsRoundTrip | NeuroSeeker_C_DLL/CSVParser.cpp:111-159 | looking up the i-th label of each table gives code i back |
| CsvParser.RowCodes | NeuroSeeker_C_DLL/CSVParser.cpp:173-176 | columns 0..3 of a row give reference, gain and bandwidth codes within their legal ranges |
| CsvParser.CsvChannelTable.constructor | NeuroSeeker_C_DLL/CSVParser.cpp:19-31 | a file that cannot be opened leaves the four vectors empty; an open file gives one entry per table row, each from that row's labels |
| CsvParser.CsvChannelTable.ParsedStringDataToChannelConfigInts | NeuroSeeker_C_DLL/CSVParser.cpp:163-178 | one entry per table row is appended to each of the four vectors, in row order; the entries already there are kept |
| CsvParser.CsvChannelTable.Append | NeuroSeeker_C_DLL/CSVParser.cpp:173-176 | each of the four vectors grows by one element, the row's code |
| NskCDll.ActiveByBlock | NeuroSeeker_C_DLL/Nsk_C_DLL.cpp:93-101 | for channels below 1440, a channel is inactive exactly when its position in its block of 120 is 57..64 |
| NskCDll.InactiveCount | NeuroSeeker_C_DLL/Nsk_C_DLL.cpp:93-101 | the first k blocks of 120 channels hold 8k inactive channels |
| NskCDll.NinetySixInactive | NeuroSeeker_C_DLL/Nsk_C_DLL.cpp:93-101 | exactly 96 of the 1440 channels are inactive |
| NskCDll.RegionBits | NeuroSeeker_C_DLL/Nsk_C_DLL.cpp:139-160 | bias bits 0..11 follow activeRegions[i] != 0, and bit 12 is always on |
| NskCDll.ActivateRegions | NeuroSeeker_C_DLL/Nsk_C_DLL.cpp:139-160 | the region loop sets the 13 bias bits to those values and changes no switch; every call succeeds |
| NskCDll.ApplyChannelRow | NeuroSeeker_C_DLL/Nsk_C_DLL.cpp:181-190 | for one channel, refSel, gain, mode and bw from its CSV row reach that channel, and the other chains are unchanged |
| NskCDll.ConfigureChannels | NeuroSeeker_C_DLL/Nsk_C_DLL.cpp:176-192 | the loop runs over all 1440 channels without an error; each active channel gets the four values of its CSV row, and every inactive channel is unchanged |
| NskCDll.SetTestMode | NeuroSeeker_C_DLL/Nsk_C_DLL.cpp:208-226 | with test mode, freqGlobal is turned on, the testing flag is set, and no other member changes; without it, nothing changes |
| NskCDll.StopTestMode | NeuroSeeker_C_DLL/Nsk_C_DLL.cpp:308-317 | when testing, freqGlobal is turned off and the testing flag cleared; otherwise nothing changes |
| NskCDll.TestModeCycle | NeuroSeeker_C_DLL/Nsk_C_DLL.cpp:208-317 | turning test mode on in NSK_Configure and passing the testing flag it sets to NSK_Close leaves freqGlobal off, every other member as it was, and the flag cleared |
| NskCDll.SampleIndexBijective | NeuroSeeker_C_DLL/Nsk_C_DLL.cpp:276-284 | the index c * n_samples + i lies below 1440 * n_samples, tells apart every (channel, sample) pair, and reaches every cell |
| NskCDll.DataMatrix.constructor | NeuroSeeker_C_DLL/Nsk_C_DLL.cpp:241-242 | the buffer holds 1440 * n_samples values |
| NskCDll.DataMatrix.Read | NeuroSeeker_C_DLL/Nsk_C_DLL.cpp:270-287 | after reading n_samples packets, cell c * n_samples + i holds channel c of packet i |
| ChainCsv.ReadCsvErrorCode.Code | Externals/NSK_API/Headers/V1.8/NeuroseekerAPI.h:237-245 | the five codes are 0..4, and the code is 0 exactly for SUCCESS |
| ChainCsv.BitText | Externals/NSK_API/Headers/V1.8/NeuroseekerAPI.h:1839-1840 | a bit is written as one character, "1" exactly for true, which is neither a comma nor a newline |
| ChainCsv.FirstCellIs | Externals/NSK_API/Headers/V1.8/NeuroseekerAPI.h:1885-1886 | the element read up to the first comma is the first cell of the line |
| ChainCsv.FileBits | Externals/NSK_API/Headers/V1.8/NeuroseekerAPI.h:1881-1889 | the file gives one bit per complete line, and the bit is true exactly when the line's first cell is "1" |
| ChainCsv.ReadLineBit | Externals/NSK_API/Headers/V1.8/NeuroseekerAPI.h:1884-1886 | the bit read from one line is that line's bit |
| ChainCsv.ReadFileBits | Externals/NSK_API/Headers/V1.8/NeuroseekerAPI.h:1881-1889 | the read loop collects exactly the bits of the file |
| ChainCsv.WriteChainToCsv | Externals/NSK_API/Headers/V1.8/NeuroseekerAPI.h:1818-1829 | the vector handed on has length n and v[i] equals chain[i] for every i |
| ChainCsv.WriteChainsToCsv | Externals/NSK_API/Headers/V1.8/NeuroseekerAPI.h:1831-1846 | the text is n rows, row i holding bit i of chains 0..5, each followed by a comma |
| ChainCsv.LinesOfWritten | Externals/NSK_API/Headers/V1.8/NeuroseekerAPI.h:1838-1843 | the lines of the written text are exactly those n rows |
| ChainCsv.ReadChainFromCsv | Externals/NSK_API/Headers/V1.8/NeuroseekerAPI.h:1848-1863 | an error from the vector reader is passed on; a vector of the wrong size gives NUMBER_OF_ELEMENTS; both leave the chain untouched; otherwise all n bits are copied and the result is SUCCESS |
| ChainCsv.ReadChainsFromCsv | Externals/NSK_API/Headers/V1.8/NeuroseekerAPI.h:1865-1901 | no file gives FILE_ERR; fewer or more than 6n bits give NUMBER_OF_ELEMENTS and leave the chains untouched; otherwise chains[j][i] is bit j*n + i |
| ChainCsv.WrittenChainsReadBack | Externals/NSK_API/Headers/V1.8/NeuroseekerAPI.h:1831-1889 | the bits read from a written file are chain 0 alone |
| ChainCsv.WrittenChainsRefused | Externals/NSK_API/Headers/V1.8/NeuroseekerAPI.h:1893-1894 | for n > 0, a written file never has the 6n bits the reader demands |
| ChainCsv.WrittenChainsCycle | Externals/NSK_API/Headers/V1.8/NeuroseekerAPI.h:1831-1901 | writing six chains of n > 0 bits and reading the file back gives NUMBER_OF_ELEMENTS and leaves the target chains untouched |
| ChainCsv.FlattenPlaces | Externals/NSK_API/Headers/V1.8/NeuroseekerAPI.h:1895-1899 | bit i of chain j sits at position j*n + i of the chain-major sequence |
| ChainCsv.ChainMajorRoundTrip | Externals/NSK_API/Headers/V1.8/NeuroseekerAPI.h:1881-1899 | a file with one bit per line, chain by chain, reads back as the chain-major sequence, so each chain comes back bit by bit |
| ChainCsv.WriteChainsChainMajor | Externals/NSK_API/Headers/V1.8/NeuroseekerAPI.h:1831-1846 | the corrected writer produces one line per bit, chain by chain |
| ChainCsv.ChainMajorCycle | Externals/NSK_API/Headers/V1.8/NeuroseekerAPI.h:1865-1901 | writing with the corrected writer and reading back gives SUCCESS and the same six chains |
| ProbeMap.OffsetBijection | Bonsai.NeuroSeeker/ApplyProbeMap.cs:50-91 | within a block, output row r + k comes from input row r + 2k for k < 4 and from r + 2(k - 4) + 1 otherwise, and that offset map is undone by its inverse |
| ProbeMap.OffsetFixedPoints | Bonsai.NeuroSeeker/ApplyProbeMap.cs:52-90 | rows r and r + 7 of each block stay in place, and every other row moves |
| ProbeMap.RowBijection | Bonsai.NeuroSeeker/ApplyProbeMap.cs:50-91 | when n_rows is a multiple of 8, the source and target rows stay in range and undo each other |
| ProbeMap.SourceRowInjective | Bonsai.NeuroSeeker/ApplyProbeMap.cs:50-91 | no input row is copied to two output rows |
| ProbeMap.MappedCells | Bonsai.NeuroSeeker/ApplyProbeMap.cs:52-90 | output cell (row, c) holds input cell (source row, c), column by column |
| ProbeMap.MappedKeepsRows | Bonsai.NeuroSeeker/ApplyProbeMap.cs:50-91 | every input row reappears unchanged as exactly one output row |
| ProbeMap.CopyRow | Bonsai.NeuroSeeker/ApplyProbeMap.cs:52-55 | one column loop copies one input row to one output row and changes no other row, nor any cell of a larger output beyond the first n_rows * n_cols |
| ProbeMap.CopyBlock | Bonsai.NeuroSeeker/ApplyProbeMap.cs:52-90 | the eight loops of one block give its rows their mapped values and leave the other blocks, and any cells beyond the first n_rows * n_cols, alone |
| ProbeMap.BlockCopiedRows | Bonsai.NeuroSeeker/ApplyProbeMap.cs:52-90 | the eight row copies, in program order, give row r + k the source row r + offset(k) |
| ProbeMap.ApplyProbeMap.constructor | Bonsai.NeuroSeeker/ApplyProbeMap.cs:32-36 | the defaults are 1440 rows and 500 columns, with no frame seen yet |
| ProbeMap.ApplyProbeMap.NextFrameCount | Bonsai.NeuroSeeker/ApplyProbeMap.cs:94 | frame_count++ stays a C# int and wraps from Int32.MaxValue to Int32.MinValue |
| ProbeMap.ApplyProbeMap.ProcessFrame | Bonsai.NeuroSeeker/ApplyProbeMap.cs:40-99 | the call succeeds exactly when the input and, after the first frame, the kept output hold n_rows * n_cols cells; then the first frame allocates the output and later frames reuse it, possibly larger after n_rows or n_cols changed, its first n_rows * n_cols cells hold the mapped frame, its other cells are unchanged, and frame_count advances by one; otherwise the out-of-range error ends the call and frame_count is unchanged |
| IplImageTexture.Min | Bonsai.NeuroSeeker/NSK_IplImageTexture.cs:85-86 | Math.Min gives one of its arguments and is below neither, in signed order |
| IplImageTexture.SmearOfFloor | Bonsai.NeuroSeeker/NSK_IplImageTexture.cs:52-56 | the five smear steps turn m into 2q - 1, where q is the top bit of m |
| IplImageTexture.NearestOfNonPositive | Bonsai.NeuroSeeker/NSK_IplImageTexture.cs:50 | for num <= 0 the result is 0 |
| IplImageTexture.NearestInRange | Bonsai.NeuroSeeker/NSK_IplImageTexture.cs:48-61 | for 1 <= num <= 2^30 the result is a power of two p with p <= num < 2p |
| IplImageTexture.NearestIsFloorPow2 | Bonsai.NeuroSeeker/NSK_IplImageTexture.cs:48-61 | in that range the result equals the largest power of two at most num, defined by repeated halving |
| IplImageTexture.NearestAboveRange | Bonsai.NeuroSeeker/NSK_IplImageTexture.cs:57-59 | for num above 2^30, n++ wraps and the signed shift gives -2^30 |
| IplImageTexture.PowerOfTwoIsFixed | Bonsai.NeuroSeeker/NSK_IplImageTexture.cs:57-59 | a power of two up to 2^30 is returned as it is |
| IplImageTexture.NearestIsRoundedSize | Bonsai.NeuroSeeker/NSK_IplImageTexture.cs:48-61 | on every Int32 the result agrees with the three-case reference |
| IplImageTexture.PixelFormatFor | Bonsai.NeuroSeeker/NSK_IplImageTexture.cs:93-100 | 1, 2, 3 and 4 channels give Luminance, Rg, Bgr and Bgra; any other count gives the exception |
| IplImageTexture.PixelFormatRoundTrip | Bonsai.NeuroSeeker/NSK_IplImageTexture.cs:93-100 | every pixel format is chosen for its own channel count |
| IplImageTexture.ImageTexture.constructor | Bonsai.NeuroSeeker/NSK_IplImageTexture.cs:20-24 | the texture keeps the driver's non-power-of-two support and its largest texture size |
| IplImageTexture.ImageTexture.TextureSize | Bonsai.NeuroSeeker/NSK_IplImageTexture.cs:83-87 | the image is resized exactly when non-power-of-two textures are unsupported or a side exceeds the largest size; the new sides are min(max, NearestPowerOfTwo(side)), so neither exceeds the largest size |

## Left out

- File access. An unopenable file is `None` in `CsvParser.CsvChannelTable.constructor` and `ChainCsv.ReadChainsFromCsv`, and file contents are a string. `std::filebuf`, `std::ifstream` and `std::ofstream` are not modelled.
- The vector overloads `writeChainToCsv(filename, vector)` and `readChainFromCsv(filename, vector)` are declared without a body. `ChainCsv.WriteChainToCsv` returns the vector it would hand on. `ChainCsv.ReadChainFromCsv` takes the overload's result code and vector as inputs.
- Chain bit layout. No file gives the layout of the 3106-bit and 53-bit chains, and the `ShiftRegister` class is not part of this model. Encoding and decoding are function parameters supplied by the caller. A shift-register failure is a boolean input. No encode/decode round trip is claimed.
- ChannelConfig.ChannelConfiguration.GetChannelConfigFromChain: the decoder is assumed to yield only states inside the documented setter ranges. The header's width comments allow more, for example a 4-bit cfix of 8..15, which the source would store. `AllChannelConfig.AllChannelConfigurations.GetAllChannelConfigsFromChains` makes the same assumption. `GeneralConfig.GeneralConfiguration.GetGeneralConfigFromChain` assumes only that the decoder yields 13 bias bits.
- Routing of global numbers. The private routing functions of `AllChannelConfigurations.h` have no body here. The model assumes the blocked layout: chain `n / 240` and local `n % 240` for channels, `n / 12` and `n % 12` for ADCs, and `n / 6` and `n % 6` for ADC pairs.
- Reset defaults. The headers do not state them, so `Reset` and the constructors take the default state as a parameter.
- `isReferenceChannel` has no body in the header. It is a set of local channel numbers fixed when a chain is built.
- `hasExternalReferences_` has no documented effect. It is stored, it is compared by `Equals`, and it changes nothing else.
- ChannelConfig.ChannelConfiguration.SetBw: when both the index and the value are bad, which error wins is undocumented. This setter and the other range-checked setters allow either of the two codes (predicate `WriteOutcome`).
- ChannelConfig.ChannelConfiguration.SetAdcPair: whether a failed multi-field write is atomic is undocumented. After a failure each field holds its old or its new value (`PairAfterFailure`). `SetAdcComp`, `SetSlopeCal`, `SetAllSlopeCal` and `SetAllAdcPairs` are treated the same way.
- AllChannelConfig.AllChannelConfigurations.SetAllAdcComps: its documentation names only SUCCESS. The model rejects an out-of-range offset with ILLEGAL_WRITE_VALUE, as `setAdcComp` does.
- AllChannelConfig.AllChannelConfigurations.GetAllChannelConfigsFromChains: the header does not say what happens after a chain fails. The model stops at the first failing chain, so the chains before it are loaded and it and the later chains are unchanged. The error code says how that chain failed, not which chain it was. `GetChains` likewise stops at the first failing chain and then returns no chains.
- The conflicting bit-width comments on the ADC fields ("5 bits", "2 bits", "4 bits") are kept as named constants only. The documented setter ranges (0..63 and 0..7) are the ones enforced.
- The twelve named switches of the general configuration are one record value, `Switches`, rather than twelve separate fields.
- NskCDll.ConfigureChannels: the `break` on a non-zero error code is not reachable. Every CSV code lies in its legal range and every channel number is below 1440, so each setter succeeds. The model proves that no error happens instead of modelling the early exit.
- The channel CSV must have at least four columns per row and at least 1440 rows. The source indexes those columns and rows without a check, and their absence is undefined behaviour there.
- `ccec` is read uninitialised in `NSK_Configure` if no channel is active. Channel 0 is active, so this never happens.
- Console output, `malloc`/`free`, the bias-voltage clamp, the DAC sine and DC generation, and the `api.*` register writes in `Nsk_C_DLL.cpp`. These are I/O and hardware calls. The register writes appear only as their effect on the configuration classes.
- `NSK_Read` and `NSK_Read_File` share one model, `NskCDll.DataMatrix.Read`. The packets are an input sequence, and the file position print is left out. Sample values are reals, because the source stores floats without computing on them.
- The `int buffer_size` argument is converted to an unsigned sample count without a check. The model takes a natural number.
- NskCDll.DataMatrix.Read: the source computes the index `c * n_samples + i` in 32-bit unsigned arithmetic. With 1440 channels it wraps once n_samples reaches 2982617. The model's index is an unbounded natural number, so the wrap is not modelled.
- `ApplyProbeMap.Process` subscribes a reactive `Select`. The model is the selector applied to one frame, `ProcessFrame`. The OpenCV `Mat` is an array of reals in row-major order. `CopyRow` and `CopyBlock` name the eight inline column loops.
- ProbeMap.ApplyProbeMap.ProcessFrame: the output `Mat` is 32-bit float, so each value stored through the indexer is rounded to float32. The model copies reals exactly.
- ProbeMap.ApplyProbeMap.ProcessFrame: when a matrix is too small, the `Mat` indexer's out-of-range error is `None`; which cells were written before it is not stated. The call requires `n_rows` to be a multiple of 8 and both properties to be non-negative. Otherwise the last block would index past the rows, or the `Mat` constructor would fail, and those errors are not modelled.
- IplImageTexture.NearestPowerOfTwo: the source updates a local `n` step by step without a loop. The model is a function whose `let` chain follows those steps over 32-bit words.
- The OpenGL calls, the float normalisation of non-8-bit images, and `Dispose` in `NSK_IplImageTexture.cs`. These are graphics I/O and floating point.
- Carriage returns. A `\r` before a newline stays in the line, as the source's `getline` leaves it.

## Findings

| source | as written | input that shows it | evidently intended | confidence | as-written member | corrected member |
|---|---|---|---|---|---|---|
| Externals/NSK_API/Headers/V1.8/NeuroseekerAPI.h:1838-1843 | `writeChainsToCsv` writes n rows, and row i holds bit i of each of the six chains | any six chains of n = 1 bit: the file has one line, so `readChainsFromCsv` reads 1 bit, not 6, and returns NUMBER_OF_ELEMENTS | one bit per line, chain after chain, which is the layout `readChainsFromCsv` reads | not executed | ChainCsv.WrittenChainsCycle | ChainCsv.ChainMajorCycle |
