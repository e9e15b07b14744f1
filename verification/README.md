# A verified model of an IEEE 1588-2008 clock

The repository is a PTP version 2 stack in C++ together with the Verilog it drives. This project models the parts
where mistakes are hard to see and proves what they keep:

- `Rtc` is the real-time counter of `rtl/rtc/ptp_rtc.v`, cycle by cycle. The wrap path uses a sum computed one cycle
  early, so "one tick per cycle" is an invariant over several registers.
- `CrcTables` and `Crc32` are the eight hand-expanded parallel CRC functions of `rtl/inc/utils.v` and the octet loop of
  `esl/sw/dep/transport.cpp`. Both refine one bit-serial register.
- `TimeArith` and `Servo` are the sign-normalised times of `esl/sw/arith.cpp` and the clock servo of
  `esl/sw/dep/servo.cpp`: filters, syntonisation detector, PI controller, clock steps.
- `DataSets` and `Bmc` are the records and the best master clock algorithm of `esl/sw/bmc.cpp`.
- `Timers`, `ForeignMasters` and `Port` are the port state machine of `esl/sw/protocol.cpp` with its latched timers
  (`esl/sw/dep/ptp_timer.cpp`) and its ring of foreign masters. `PortInvariants`, `PortPairing`, `PortTable`, `PortLog`
  and `PortRuns` are what every pass and every run keeps, `PortRules` what a port acts on and what makes it faulty,
  `PortFailures` and `PortPaths` where it goes wrong and how it gets there. `Protocol` is the object itself, over timer,
  clock and table objects that it updates in place.
- `ClockStep` takes an offset from a Sync through the servo and the registers to the counter.
- `Layout`, `Frame` and `Messages` are the frame printer and parser of `esl/sw/dep/transport.cpp` and the message
  packers of `esl/sw/dep/msg.cpp`, which reuse one buffer that is never cleared.
- `Xgmii` holds the transmit and receive frame buffers of `esl/vl/tx_ptp_buf.v` and `esl/vl/rx_ptp_buf.v`, and
  `EndToEnd` takes a message from one clock's buffer to the other's.

Code that changes state is a class or a method on arrays whose contract ties the new state to a function of the old
one; the properties are lemmas about those functions, for all inputs and all runs. Integer widths, wrap-around and
truncation toward zero are written out where the original has them.

## Where the code does not do what one would expect

Each of these is stated by a lemma in the table, with the exact condition where there is one. Failures of the counter
and of the port come with a run from reset or power-up that gets there.

- The offset handshake of the counter does not guard the borrow, which is one cycle older than the sum
  (`Rtc.AdjustIsExactIff`, `Rtc.BorrowTooEarly`), nor the last cycle of a second (`Rtc.AdjustSurvivesIff`,
  `Rtc.StepUndone`); together they decide what a pulse does to the time (`Rtc.PulseStepsClockIff`). A clear in that
  cycle leaves the wrap behind (`Rtc.ClearIsExactIff`, `Rtc.ClearKeepsWrap`).
- A `maxDelay` of zero is commented as "off" but makes every nonzero offset a jump (`Servo.ZeroMaxDelayIsNotOff`), and
  stopping the counter with a zero tick is clamped to the slowest rate (`Servo.ZeroTickIsSlowest`).
- Initialising the servo keeps the last sample of the delay filter, so after a change of master the first delay is
  mixed with one of the old master (`Servo.FirstDelayAfterInitIff`, `Servo.StaleSampleRun`).
- The data set comparison is not an order when one grandmaster is announced with different attributes, or when a
  sender is the parent (`Bmc.IncoherentRecordsCycle`, `Bmc.CompareIsKeyOrderIff`, `Bmc.SenderIsParentBreaksEquality`).
- Running the best master clock algorithm again on the same table may still change leap flags and UTC data once, because
  they depend on the state a run starts in (`Bmc.RerunSettles`, `Bmc.RerunMoves`).
- A slave-only clock gets class 255 one initialisation late (`Bmc.SlaveOnlyClassComesLate`).
- Initialisation resets the number of foreign masters but not the insert slot
  (`ForeignMasters.ReinitializedIsProperIff`, `PortPaths.ReinitializedRun`); a timeout that meets a pending update makes
  a slave-only clock follow an entry it has just forgotten (`PortFailures.TimeoutWithUpdateFollowsOldEntry`,
  `PortPaths.TimeoutWithUpdateRun`).
- The table of a PASSIVE port does not take its parent's Announces, so the next decision goes back to outdated data
  (`PortTable.EntriesAreCurrent`, `PortPaths.PassiveKeepsOutdatedRun`).
- Interrupts between reading and clearing the tick counter are lost (`Timers.TicksAreConserved`).
- Stopping a timer keeps its latched expiry (`Timers.StoppedTimerExpiresIff`), which can take a faulty port straight to
  MASTER (`PortFailures.LatchedReceiptLeavesFault`, `PortPaths.LatchedReceiptRun`) or a Delay_Req into it
  (`PortFailures.LatchedRequestFollowsIntoMaster`, `PortPaths.RequestIntoMasterRun`).
- A Follow_Up of a new parent can complete a Sync of the old one (`PortPairing.PendingSyncOutlivesParentIff`,
  `PortPaths.MixedFollowUpRun`), a Delay_Req without a transmit timestamp mixes the times of two requests
  (`PortPairing.AnswerFitsUnlessBlind`, `PortPaths.BlindRequestRun`), and one sequence id in 65536 is never answered
  (`PortPairing.WrappedRequestIsUnanswered`, `PortPaths.WrappedRequestRun`, `PortPaths.WrappedPeerRequestRun`). Peer
  delay answers may be used repeatedly (`PortPairing.PeerFollowUpMayRepeat`, `PortPaths.RepeatedPeerFollowUpRun`).
- The flags of octet 7 are never written by any packer (`Messages.HeaderRoundTrip`).
- The header checksum of IPv4 is zero and the UDP checksum a constant (`Frame.FrameIsAddressed`); the SNAP control
  octet and the PPPoE header are zeros (`Frame.TagsAndShim`).
- The SNAP length field is not that of IEEE 802.3 (`Frame.SnapLengthCountsWholeFrame`).
- The parser does not recognise PPPoE without IP, which the printer can build (`Frame.ParseUndoesAssemble`), and reads
  a frame with a service tag alone four octets too late (`Frame.TagsSkipped`).
- Frames of 501 to 504 octets are received whole but keep the repacking loop turning for ever
  (`Xgmii.RepackEndsIff`); longer ones are cut (`Xgmii.RoundTripIff`).

## Model

| member | source | states |
|---|---|---|
| Crc32.NextCrcIsSerial | rtl/inc/utils.v:9-391 | Each of the eight parallel functions for 8 to 64 bits equals shifting its data bits one at a time through the section 3.2.9 polynomial of IEEE 802.3, for every register value and every data value |
| Crc32.WideStepIsLaneSteps | rtl/inc/utils.v:475-506 | For every bus word, lane count 1 to 8 and register, the wide hardware step equals feeding the lanes one octet at a time, lane 0 first |
| Crc32.AnyCutting | rtl/inc/utils.v:475-506 | However a frame is cut into bus words, the hardware ends in the register of the software octet loop over the same octets |
| Crc32.OctetFoldConcat | esl/sw/dep/transport.cpp:196-201 | The octet loop over a concatenation continues from the register of its first part |
| Crc32.SelfFeed | esl/sw/dep/transport.cpp:196-204 | Feeding a register n bits of its own complement leaves what is left of it after n shifts, combined with a state that does not depend on it; after 32 bits nothing of it is left |
| Crc32.CheckedRegister | esl/sw/dep/transport.cpp:328-334 | After any frame and its own four check octets the register is one constant |
| Crc32.FcsResidue | esl/sw/dep/transport.cpp:191-204 | The value computed over any frame including its appended check octets is 0x2144DF1C |
| Crc32.ReverseBits | esl/sw/dep/transport.cpp:94-128 | The two bit loops return the number whose bits are those of the input in the opposite order |
| Crc32.NextCrc32D8 | esl/sw/dep/transport.cpp:130-189 | The software step on numbers computes the same register as the hardware's 8-bit function |
| Crc32.CalculateCrc | esl/sw/dep/transport.cpp:191-204 | The octet loop returns the complemented, bit-reversed serial register of the first dataLen octets |
| Rtc.PtpRtc.RisingEdge | rtl/rtc/ptp_rtc.v:49-181 | One clock edge updates all eleven registers together to the next state, each from the old values |
| Rtc.ResetIsSteady | rtl/rtc/ptp_rtc.v:49-60 | The reset state satisfies the invariant that ties counter, wrap flags and early sum together |
| Rtc.ConservesTime | rtl/rtc/ptp_rtc.v:97-181 | Without clear or adjust every cycle advances seconds and nanoseconds together by exactly one tick, through every wrap, modulo 2^48 seconds |
| Rtc.StaysSteady | rtl/rtc/ptp_rtc.v:51-71 | Nanoseconds, wrap flags and early sum agree in every plain cycle, and the wrap flag is never set in two cycles running |
| Rtc.RunConservesTime | rtl/rtc/ptp_rtc.v:49-181 | Over any quiet run of n cycles at one tick rate the time advances by exactly n ticks |
| Rtc.RunSettles | rtl/rtc/ptp_rtc.v:49-181 | From any state an adjust cycle can leave behind, quiet cycles conserve time, and after at most seven of them the clock is steady again |
| Rtc.ExactlyOneAdjust | rtl/rtc/ptp_rtc.v:73-95 | An offset pulse on an idle steady clock yields exactly one adjust cycle, one to five cycles later, and says which |
| Rtc.SpacedPulses | rtl/rtc/ptp_rtc.v:73-181 | However many pulses came before, at least fourteen cycles apart, the next one finds the clock steady and idle, and the adjust register is up in exactly one cycle of its segment, the one after its wrap phase |
| Rtc.PulseStepsClockIff | rtl/rtc/ptp_rtc.v:49-181 | From a pulse with stable offsets to any cycle after the adjustment the time has gained one tick per cycle plus the offset, less a fraction of a nanosecond, if and only if the borrow had the sign of the sum and the clock was not about to leave its second (or had nothing to lose) |
| Rtc.PulseState | rtl/rtc/ptp_rtc.v:73-95 | Until its adjust cycle a pulse is remembered by the retain flag, and afterwards nothing is pending |
| Rtc.PhaseCountsDown | rtl/rtc/ptp_rtc.v:52-71 | A wrap blocks adjusting for a number of cycles that falls by one per cycle |
| Rtc.GuardedCycle | rtl/rtc/ptp_rtc.v:73-120 | What the guard does give an adjust cycle: no wrap in progress, nanoseconds below one second, and a nanosecond sum of the current time |
| Rtc.AdjustIsExactIff | rtl/rtc/ptp_rtc.v:113-181 | An adjust cycle sets the time to old whole nanoseconds plus offset plus tick if and only if the borrow register, one cycle older, has the sign of the sum; otherwise it is one second off |
| Rtc.AdjustSurvivesIff | rtl/rtc/ptp_rtc.v:97-144 | The cycle after the adjustment keeps it if and only if the old time was not about to leave its second, or fraction and nanosecond offset together changed nothing |
| Rtc.ClearIsExactIff | rtl/rtc/ptp_rtc.v:131-181 | After a clear the counter restarts from zero if and only if it was not leaving its second in that cycle |
| Rtc.ClearKeepsWrap | rtl/rtc/ptp_rtc.v:131-181 | A run from reset to a cleared clock that restarts one second on |
| Rtc.SecondsFieldIsCongruent | esl/sw/dep/sys.cpp:586-601 | The two second-offset register writes carry the signed offset modulo 2^48 |
| Rtc.ClockStepSubtractsOffset | esl/sw/dep/servo.cpp:518-532 | A clock step through the offset registers takes the measured offset off the time, up to the dropped fraction of a nanosecond, when the adjust cycle is exact |
| Rtc.BorrowTooEarly | rtl/rtc/ptp_rtc.v:113-166 | A run from reset to a step of -10 ns for which the borrow is taken wrongly |
| Rtc.StepUndone | rtl/rtc/ptp_rtc.v:131-144 | A run from reset to a step of +1000 ns that the wrap path undoes |
| TimeArith.CanonicalIsUnique | esl/sw/arith.cpp:143-156 | A pair with nanoseconds below one second and agreeing signs is determined by its value |
| TimeArith.NormalizedIsCanonical | esl/sw/arith.cpp:143-156 | Normalising any pair keeps its value and gives the canonical pair |
| TimeArith.SumIsExact | esl/sw/arith.cpp:158-165 | Addition is addition of values, in canonical form |
| TimeArith.DifferenceIsExact | esl/sw/arith.cpp:167-174 | Subtraction is subtraction of values, in canonical form |
| TimeArith.HalfTruncates | esl/sw/arith.cpp:201-208 | Halving a canonical time truncates its value toward zero |
| TimeArith.NoNanosecondOverflow | esl/sw/arith.cpp:158-208 | On canonical operands no intermediate nanosecond value leaves 32 bits |
| TimeArith.NotBeforeIsOrder | esl/sw/arith.cpp:228-234 | The test called greater-than holds exactly when the first time is not earlier, equality included |
| TimeArith.IsCloseIsDistance | esl/sw/arith.cpp:245-258 | Two times are close exactly when their distance is strictly below the limit |
| TimeArith.FromScaledTruncates | esl/sw/arith.cpp:69-95 | A 64-bit correction in 2^-16 ns becomes its value in whole nanoseconds, fraction dropped toward zero |
| TimeArith.TimestampRoundTrip | esl/sw/arith.cpp:98-126 | A time that is not negative survives the timestamp if and only if its seconds fit 48 bits; a negative one leaves the timestamp as it was |
| TimeArith.NormalizeTime | esl/sw/arith.cpp:143-156 | The in-place normalisation leaves the canonical pair of the old value |
| TimeArith.AddTime | esl/sw/arith.cpp:158-165 | The result may be one of the operands and is still the sum of their old values |
| TimeArith.SubTime | esl/sw/arith.cpp:167-174 | The result may be one of the operands and is still the difference of their old values |
| TimeArith.Div2Time | esl/sw/arith.cpp:201-208 | In-place halving: exact truncation of a canonical old value, and within a nanosecond of half of any other |
| TimeArith.PreciseRxTimeIff | esl/sw/dep/sys.cpp:754-767 | The full ingress time is rebuilt from embedded nanoseconds if and only if the counter is read later, by at most one second |
| Servo.ShrIsZeroIff | esl/sw/dep/servo.cpp:284-285 | The shift test of the overflow guard is a comparison with a power of two |
| Servo.NoFilterOverflow | esl/sw/dep/servo.cpp:282-298 | After the guard the product in the filter fits 32 bits, for every filter state |
| Servo.FilterStaysInRange | esl/sw/dep/servo.cpp:288-300 | One filter update never exceeds the magnitude of its state and its input |
| Servo.FilterKeepsSign | esl/sw/dep/servo.cpp:275-300 | Non-negative samples keep the filter non-negative |
| Servo.BlendIsWeightedMean | esl/sw/dep/servo.cpp:295-300 | The filter output is the weighted mean of the old output and the last two samples, up to rounding by less than two in units of the result |
| Servo.ExtremeIsPeak | esl/sw/dep/servo.cpp:731-746 | The scan of the delay line finds a largest magnitude: the last one of the first half if there is one, otherwise the first of the second half |
| Servo.SyntonizesIff | esl/sw/dep/servo.cpp:731-752 | The frequencies count as equal exactly when all thirty entries are below 38 ns and the chosen peak is strictly interior |
| Servo.StepsIff | esl/sw/dep/servo.cpp:593-651 | A clock step is commanded exactly when it is allowed and the offset is too large or syntonisation has just ended, and it is the negated offset |
| Servo.ZeroMaxDelayIsNotOff | esl/sw/dep/servo.cpp:475-481 | With a limit of zero, documented as off, only an offset of zero is accepted |
| Servo.ZeroTickIsSlowest | esl/sw/dep/sys.cpp:524-545 | Writing a zero tick to stop the counter writes the slowest allowed rate instead |
| Servo.SteersAgainstOffset | esl/sw/dep/servo.cpp:653-693 | Of two steering states the one whose clock is further ahead gets a tick that is not larger |
| Servo.SteeringLaw | esl/sw/dep/servo.cpp:653-690 | One steering update moves the drift by exactly the offset over the integral attenuation and the tick rate by exactly minus proportional part and drift, each up to its limit; nothing else changes |
| Servo.DriftAccumulates | esl/sw/dep/servo.cpp:653-690 | n updates at one offset move the drift n times, up to the limit, by induction over the run |
| Servo.SlewLaw | esl/sw/dep/servo.cpp:624-652 | With clock steps disabled a jump slews at the full rate: slower for a positive offset, faster for a negative one |
| Servo.RunIsBounded | esl/sw/dep/servo.cpp:172-693 | In every run of updates the filter stays within the largest sample, the drift within its clamp, and the tick within the allowed range |
| Servo.PeakBelowSecond | esl/sw/dep/servo.cpp:262-279 | Every sample that reaches the delay filter is below one second |
| Servo.RunMatches | esl/sw/dep/servo.cpp:496-512 | In every run the delay line holds exactly the newest accepted offsets since initialisation, and the three flags are one delayed signal |
| Servo.InitializedMatches | esl/sw/dep/servo.cpp:155-165 | Initialisation establishes that with an empty history |
| Servo.InitForgetsIff | esl/sw/dep/servo.cpp:79-168 | Two servos are equal after initialising if and only if output and last sample of their delay filters and the commands given so far agreed: nothing else survives |
| Servo.LevelOfEvent | esl/sw/dep/servo.cpp:508-512 | The flags move only through FFF, TFF, TTF, TTT, one step per accepted offset |
| Servo.TurnsOnIff | esl/sw/dep/servo.cpp:721-754 | The syntonised flag turns on with an accepted offset if and only if at least 31 offsets were accepted before since the last initialisation, the newest thirty are all below the threshold and the largest of them that the scan chooses is strictly inside |
| Servo.ForcedStepIsUnique | esl/sw/dep/servo.cpp:613-636 | Between initialisations exactly one accepted offset leaves the servo in the state that forces a clock step |
| Servo.SyncRecovery | esl/sw/dep/servo.cpp:447-454 | The measured master-to-slave delay is path delay plus true offset, corrections taken out |
| Servo.DelayReqRecovery | esl/sw/dep/servo.cpp:246-259 | The offset cancels in the mean path delay, which is half of the two delays for any corrections |
| Servo.OffsetRecovery | esl/sw/dep/servo.cpp:456-473 | The offset taken from a Sync is the true one plus path delay, and once syntonised less the mean delay of the mechanism in use |
| Servo.OffsetFilterIsMean | esl/sw/dep/servo.cpp:483-489 | The offset filter averages the last two offsets up to rounding, except in the one update that jumps |
| Servo.FirstDelayAfterInitIff | esl/sw/dep/servo.cpp:282-300 | The first delay a freshly initialised filter publishes is its sample if and only if no sample is left from before, or one with the same half |
| Servo.InitKeepsLastSample | esl/sw/dep/servo.cpp:79-168 | Initialisation resets the gain of the filter but keeps its output and its last sample |
| Servo.StaleSampleRun | esl/sw/dep/servo.cpp:79-300 | A run from power-up over two masters, for every pair of path delays: the first delay published for the second is the mean of both, so its own if and only if the first path was none or has the same half |
| Servo.EndToEndRecovery | esl/sw/dep/servo.cpp:172-483 | After one Sync and one Delay_Req exchange the filter has taken in half the round trip: it publishes that or its weighted mean with what it held, exactly when; and the next offset is the true one plus path delay less the published delay |
| Servo.RecoveryIsExactIff | esl/sw/dep/servo.cpp:457-467 | So the true offset is recovered exactly if and only if the path is symmetric up to an odd nanosecond |
| Servo.PeerRecovery | esl/sw/dep/servo.cpp:343-363 | The two-step peer delay is half of the two delays, whatever the offset between the clocks |
| Servo.PeerToPeerRecovery | esl/sw/dep/servo.cpp:335-467 | The same for a two-step peer exchange, whatever the offset to the peer |
| Servo.StoredOffset | esl/sw/dep/servo.cpp:414-515 | What an offset update stores, in true times: beyond the limit the whole offset (path delay plus clock offset, or clock offset plus path delay minus mean once syntonised) with the delay line untouched; within it the front of the delay line, which is the newest offset or the mean of the last two, everything else one place on |
| Servo.SyncStepsClock | esl/sw/dep/servo.cpp:518-652 | A Sync beyond the jump limit and below the reset limit makes the servo command exactly one step, of minus the offset in true times; at the reset limit it commands nothing |
| ClockStep.CommandMovesIff | esl/sw/dep/sys.cpp:586-610 | Written through the two offset registers with a pulse, a commanded step moves a steady counter by exactly its value, less a dropped fraction of a nanosecond, if and only if the exact condition of the counter holds |
| ClockStep.InitialisationSetsTimeIff | esl/sw/dep/servo.cpp:79-140 | An initialisation clears the counter and commands one step, which moves the counter by the time of the operating system, plus the UTC offset if that is valid, if and only if the exact condition of the counter holds |
| ClockStep.SyncMovesCounterIff | esl/sw/dep/servo.cpp:414-670 | From a Sync to the counter: the command that follows takes path delay plus clock offset off the counter if and only if the exact condition of the counter holds |
| Servo.DelayTaken | esl/sw/dep/servo.cpp:171-309 | What a delay exchange stores, in true times: nothing before the first offset or beyond the limit; otherwise the published value characterised by the halved round trip, with the filter cleared for a second or more and kept for a negative mean |
| Servo.PeerDelayTaken | esl/sw/dep/servo.cpp:335-412 | What a two-step peer exchange stores, in true times: the filtered mean of the two delays, or a mean of a second or more unfiltered with the filter cleared |
| Servo.GainGrows | esl/sw/dep/servo.cpp:282-300 | From a cleared filter and over every sequence of samples the weight of the past grows by one a sample up to its ceiling of two to the stiffness, and no sample ever meets the overflow guard if the ceiling suits the range |
| Servo.OneStepIsTwoStep | esl/sw/dep/servo.cpp:343-377 | A one-step peer answer gives the two-step result when its correction carries the turnaround time |
| Servo.ClockServo.InitClock | esl/sw/dep/servo.cpp:79-168 | Stops, clears, presets and restarts the counter and resets all servo state but the output and last sample of the delay filter |
| Servo.ClockServo.FilterDelay | esl/sw/dep/servo.cpp:282-307 | The guard loop ends, the gain moves by at most one step, and the filter and the published delay are those of the filter function |
| Servo.ClockServo.UpdateDelay | esl/sw/dep/servo.cpp:171-309 | The delay update with all its rejections, against the update function |
| Servo.ClockServo.UpdatePeerDelay | esl/sw/dep/servo.cpp:335-412 | The peer delay update, one-step and two-step, against the update function |
| Servo.ClockServo.SyntonizeFrequency | esl/sw/dep/servo.cpp:721-754 | The loop decides what the scan function says about the delay line |
| Servo.ClockServo.ShiftIn | esl/sw/dep/servo.cpp:502-506 | The shift loop moves every entry one place on and puts the new one first |
| Servo.ClockServo.UpdateOffset | esl/sw/dep/servo.cpp:414-515 | The offset update against the update function, history flags included |
| Servo.ClockServo.UpdateClock | esl/sw/dep/servo.cpp:585-693 | Stepping, slewing or steering against the update function |
| Bmc.MemcmpTransitive | esl/sw/bmc.cpp:300-310 | Octet string comparison is transitive, strictly so when one step is strict |
| Bmc.CompareAntisymmetric | esl/sw/bmc.cpp:260-377 | Swapping the records negates the result, for all inputs |
| Bmc.CompareIsKeyOrderIff | esl/sw/bmc.cpp:260-377 | For any two records the seven-level decision tree is one lexicographic comparison of 24-octet keys, except exactly when one grandmaster is named with equal attributes and a sender one hop further away is the parent, or with different attributes that do not order the records as distance and sender do |
| Bmc.IncoherentRecordsCycle | esl/sw/bmc.cpp:260-377 | With one grandmaster named with two priorities three records beat each other in a circle |
| Bmc.SenderIsParentBreaksEquality | esl/sw/bmc.cpp:277-296 | With the parent as sender one hop further away a record equals two others of which one beats the other |
| Bmc.BestIsFirstLeast | esl/sw/bmc.cpp:446-457 | On a consistent table the scan chooses the first record that no other beats |
| Bmc.SlaveOnlyClassComesLate | esl/sw/bmc.cpp:91-101 | A slave-only clock has class 255 only from its second initialisation on, unless configured so |
| Bmc.InitTakesOptions | esl/sw/bmc.cpp:76-101 | Initialisation takes identity, quality and both priorities from the options and, for a slave-only clock, changes nothing but the quality kept for the next one |
| Bmc.IdentityIsInjective | esl/sw/bmc.cpp:76-88 | The clock identity keeps the six octets of the hardware address around FF FE, so different addresses give different identities |
| Bmc.SlaveOnlyStaysSlave | esl/sw/bmc.cpp:386-389 | A slave-only clock is decided SLAVE, except that a master without records stays MASTER |
| Bmc.FaultyIff | esl/sw/bmc.cpp:381-428 | The fault decision is reached exactly when the best record names this clock as grandmaster and comes from itself, or from the parent at one hop |
| Bmc.LeastExists | esl/sw/bmc.cpp:260-377 | Clocks with distinct identities have one whose own data set beats all others |
| Bmc.LeastIsUnique | esl/sw/bmc.cpp:260-377 | And only one |
| Bmc.Election | esl/sw/bmc.cpp:381-462 | For any number of clocks that hold each other in the part of their tables that is in use, the least becomes MASTER and every other SLAVE (PASSIVE if its class is below 128) with the least as parent and the least's attributes as its grandmaster data, whatever states and data sets they start from |
| Bmc.RelayedElection | esl/sw/bmc.cpp:205-462 | The election with boundary clocks between: if every record names another clock as grandmaster, at any distance and by any sender, and every other clock is named, exactly the least clock becomes MASTER and every other names it, with its quality and priorities, the sender of the record as parent, one step more than the record, and no record of that grandmaster is nearer |
| Bmc.ExecTakesRecord | esl/sw/bmc.cpp:381-462 | On any table, a clock decided SLAVE or PASSIVE names sender, grandmaster and quality of the record of the returned index and its distance plus one modulo 65536 |
| Bmc.FollowingTakesRecord | esl/sw/bmc.cpp:184-236 | Whatever the state before, following a record names its sender, grandmaster, quality, both priorities and time source, and one step more than it, wrapping from 65535 to 0; offset and mean delay stay |
| Bmc.LeadingTakesDefaults | esl/sw/bmc.cpp:137-170 | A clock that leads names itself at distance zero with no offset and no delay, its own UTC offset and time source, UTC not valid, and the other flags of before |
| Bmc.RerunSettles | esl/sw/bmc.cpp:184-236 | Rerunning on the same table decides the same and keeps parent and distance; it changes nothing at all if and only if the first run met leap flags and UTC data that need no correction in the new state, and nothing changes from the second rerun on |
| Bmc.RerunMoves | esl/sw/bmc.cpp:216-228 | A clock in LISTENING that hears a leap second announced: its first rerun still changes a flag |
| Bmc.OthersKeepLeapFlags | esl/sw/bmc.cpp:173-236 | Outside SLAVE following a record keeps the leap flags, and in PASSIVE the configured, invalid UTC offset; all else is the record's |
| Bmc.SlaveTakesTimeProperties | esl/sw/bmc.cpp:184-236 | In SLAVE all time properties are the record's |
| Bmc.PtpClock.M1 | esl/sw/bmc.cpp:137-170 | The data sets of a clock that becomes its own grandmaster |
| Bmc.PtpClock.S1 | esl/sw/bmc.cpp:184-236 | The data sets of a clock that follows a record, leap flags only in SLAVE and UTC data not in PASSIVE |
| Bmc.PtpClock.CopyD0 | esl/sw/bmc.cpp:238-253 | The own record written over a scratch message, its port number and flags left as they were |
| Bmc.PtpClock.BmcStateDecision | esl/sw/bmc.cpp:380-428 | Decision and new data sets against the decision function |
| Bmc.PtpClock.BmcExec | esl/sw/bmc.cpp:432-462 | The loop over the part of the table in use chooses the record of the scan function and stores its index, the decision follows it, and for every set of clocks it is the election's |
| Timers.RunIsSound | esl/sw/dep/ptp_timer.cpp:111-200 | In every run an armed timer has more than zero and at most its interval to go |
| Timers.TicksAreConserved | esl/sw/dep/ptp_timer.cpp:73-125 | Under every interleaving, interrupts counted equal ticks handed to the timers plus ticks unread plus exactly those that fall between reading and clearing the counter |
| Timers.LatchSurvives | esl/sw/dep/ptp_timer.cpp:143-243 | A latched expiry outlives every operation except its own poll and its own restart |
| Timers.StoppedTimerExpiresIff | esl/sw/dep/ptp_timer.cpp:143-152 | A stopped timer reports an expiry exactly if one was latched before |
| Timers.ExpiriesAreRationed | esl/sw/dep/ptp_timer.cpp:154-200 | Expiries times interval never exceed the ticks since the start plus those unread at the start |
| Timers.ExpiryIsReported | esl/sw/dep/ptp_timer.cpp:225-243 | A poll reports exactly when an expiry is latched or the unread ticks reach the remaining time of an armed timer |
| Timers.CountsDown | esl/sw/dep/ptp_timer.cpp:111-141 | While no one starts or stops or polls a timer and it has not expired, its remaining time is what it had less all ticks handed out, over every run of the other operations |
| Timers.ExpiresInTime | esl/sw/dep/ptp_timer.cpp:111-200 | A timer that is started and not started or stopped again has expired as soon as the ticks handed out reach the interval it was given |
| Timers.PtpTimer.TimerUpdate | esl/sw/dep/ptp_timer.cpp:111-141 | The loop counts all armed timers down by the ticks read, re-arming and latching those that reach zero, and loses the interrupts that arrive before the counter is cleared |
| Timers.PtpTimer.TimerStart | esl/sw/dep/ptp_timer.cpp:154-200 | Arms one timer with at least one tick and clears its latch |
| Timers.PtpTimer.TimerStop | esl/sw/dep/ptp_timer.cpp:143-152 | Clears the interval only |
| Timers.PtpTimer.TimerExpired | esl/sw/dep/ptp_timer.cpp:225-243 | Updates all timers, then reports and clears the latch of one |
| ForeignMasters.AddedIsProper | esl/sw/protocol.cpp:1981-2036 | From an index in use, adding keeps keys distinct, header senders equal to keys, slots filling in order and the count within the table, and the sender is known afterwards |
| ForeignMasters.AddedKeepsOthers | esl/sw/protocol.cpp:2008-2034 | Nothing is forgotten until the table is full, and then exactly the entry in the insert slot |
| ForeignMasters.AddedUpdates | esl/sw/protocol.cpp:1981-2036 | After an Announce some entry in use has its sender as key and its very record, known or new, and every entry of another key in use is an entry of before at the same place, unchanged |
| ForeignMasters.AddedCounts | esl/sw/protocol.cpp:1998-2031 | The entry of the sender counts one Announce more, modulo 65536, if it was known, and starts at zero if it was not |
| ForeignMasters.RefreshedUpdates | esl/sw/protocol.cpp:715-719 | Refreshing the parent has the same effect on the table: its entry holds the new record, the others are as before |
| ForeignMasters.ReinitializedIsProperIff | esl/sw/bmc.cpp:130-134 | Initialisation keeps that invariant if and only if the insert slot stands at zero |
| ForeignMasters.ReinitializedTableShowsOldEntry | esl/sw/bmc.cpp:130-134 | Otherwise the next master is stored outside the part in use, where an outdated entry is read instead |
| ForeignMasters.SearchFindsIff | esl/sw/protocol.cpp:1987-2005 | From an index in use the circular search finds a sender if and only if its key is in use |
| ForeignMasters.ForeignTable.FindForeign | esl/sw/protocol.cpp:1987-2006 | The circular search from any index against the search function |
| ForeignMasters.ForeignTable.AddForeign | esl/sw/protocol.cpp:1981-2036 | Search and insertion together are the table function, whatever state the ring is in |
| Port.ToStateKeeps | esl/sw/protocol.cpp:112-304 | A state change leaves table, options, parent and update flag alone and reaches the state asked for |
| PortInvariants.ToStateTimed | esl/sw/protocol.cpp:112-304 | A state change stops and starts what the state left and the state entered ask for, each timer at its own interval |
| PortInvariants.HandleMessageTimed | esl/sw/protocol.cpp:485-660 | No message breaks the correspondence between timers and states |
| PortInvariants.DoStateTimed | esl/sw/protocol.cpp:336-482 | Nor does any pass of the main loop |
| PortInvariants.ExecFollowsBest | esl/sw/bmc.cpp:432-462 | A decision to follow takes the parent from the record at the chosen index, inside the part in use |
| PortInvariants.HandleMessageTidy | esl/sw/protocol.cpp:663-800 | Every message keeps the table proper, from a state without pending update |
| PortInvariants.DecisionClearsUpdate | esl/sw/protocol.cpp:343-364 | After the decision step the port handles messages only with no update pending |
| PortInvariants.DoStateTidy | esl/sw/protocol.cpp:336-482 | Every pass keeps the table proper, scannable, and the parent equal to the best record's sender |
| PortPairing.SyncPaired | esl/sw/protocol.cpp:883-923 | A Sync is stored with its own sequence id, receive time and correction, or used at once |
| PortPairing.FollowUpPaired | esl/sw/protocol.cpp:976-1006 | A Follow_Up completes the latest accepted Sync with the same sequence id and uses it up |
| PortPairing.DelayRespPaired | esl/sw/protocol.cpp:1103-1146 | A Delay_Resp answers the sequence id of the latest request and uses up the latest send time |
| PortPairing.StepPaired | esl/sw/protocol.cpp:336-482 | Every pass keeps the pairing invariant |
| PortPairing.UsedAtMostOnce | esl/sw/protocol.cpp:883-1146 | There are never more offset updates than accepted Syncs, nor more delay updates than timestamped Delay_Reqs |
| PortPairing.NothingIsReused | esl/sw/protocol.cpp:883-1146 | Between any two offset updates lies the Sync that the second completes, and between any two delay updates the request whose send time the second uses |
| PortPairing.AnswerFitsUnlessBlind | esl/sw/protocol.cpp:1752-1768 | The send time used is that of the latest request if and only if that request had a transmit timestamp |
| PortPairing.BlindRequestMixesTimes | esl/sw/protocol.cpp:1752-1768 | Otherwise the send time of an older request meets the receive time of the newer one |
| PortPairing.WrappedRequestIsUnanswered | esl/sw/protocol.cpp:1117-1120 | The response of the parent to the latest request of a waiting slave is accepted if and only if that request did not have the last sequence id before the counter wraps |
| PortPairing.WrappedPeerRequestIsUnanswered | esl/sw/protocol.cpp:1275-1305 | The same for a one-step peer response |
| PortPairing.WrappedPeerFollowUpIsUnanswered | esl/sw/protocol.cpp:1275-1370 | The same for a two-step peer response and its Follow_Up |
| PortPairing.PeerFollowUpMayRepeat | esl/sw/protocol.cpp:1350-1370 | An accepted Pdelay_Resp_Follow_Up is accepted again, each time driving a peer delay update |
| PortPairing.SwitchKeepsPendingSync | esl/sw/protocol.cpp:353-360 | Changing the parent while staying SLAVE keeps a pending Sync and does not restart the servo |
| PortPairing.PendingSyncOutlivesParentIff | esl/sw/protocol.cpp:353-360 | A pending Sync outlives a change of parent exactly in a decision that stays SLAVE and follows another sender |
| PortPairing.MessagesKeepParent | esl/sw/protocol.cpp:485-660 | No message changes the parent of a SLAVE |
| PortPairing.FollowUpFitsIffSameParent | esl/sw/protocol.cpp:970-1001 | A two-step offset combines two messages of one master if and only if the parent is still the sender of the Sync |
| PortRuns.RunKeepsTimersAndPairs | esl/sw/protocol.cpp:70-107 | Every run keeps the correspondence of timers and states, the limits of slave-only clocks and the pairing of messages |
| PortRuns.RunKeepsTable | esl/sw/protocol.cpp:70-107 | Every run whose initialisations find the insert slot at zero keeps the foreign-master table invariant |
| PortRuns.TimersRunAtTheirIntervals | esl/sw/protocol.cpp:140-304 | In every run from power-up each of these timers runs at the interval its state asks for: Sync and Announce of a MASTER, receipt in LISTENING at its own interval, receipt in SLAVE and PASSIVE, peer delay wherever it runs |
| PortTable.AnnounceAcceptedIff | esl/sw/protocol.cpp:663-822 | Exactly the Announces of others outside the ignoring states are accepted and ask for a decision; all but those of a PASSIVE port's own parent go to the table |
| PortTable.AnnounceUpdatesIff | esl/sw/protocol.cpp:663-822 | An accepted Announce puts its record into the entry of its sender and leaves the other entries in use alone, except for the parent of a PASSIVE port, where the table stays as it was |
| PortTable.ParentIsFollowed | esl/sw/protocol.cpp:707-795 | An Announce of the parent of a SLAVE or PASSIVE port updates the parent data set at once: same parent, the new grandmaster, its distance plus one |
| PortRules.AnnounceRestartsReceiptIff | esl/sw/protocol.cpp:707-795 | Exactly the accepted Announces of a port that takes time, and those of a PASSIVE port's parent, give the receipt timer its whole interval and clear its latch; no other timer moves |
| PortTable.EntriesAreCurrent | esl/sw/protocol.cpp:663-2036 | In every run from power-up with clean initialisations every entry in use holds the latest stored Announce of its key; it is the latest accepted one exactly as long as that did not come from the parent of a PASSIVE port |
| PortPaths.PassiveKeepsOutdatedRun | esl/sw/protocol.cpp:758-804 | A run from power-up in which a PASSIVE port hears new data from its parent, follows it, and goes back to the outdated data at its next decision because its table never took them |
| PortRuns.PoweredUpIsSound | esl/sw/protocol.cpp:70-75 | The power-up state satisfies all three invariants |
| PortRuns.TimersTellState | esl/sw/protocol.cpp:112-482 | From power-up, Sync and Announce timers run exactly in MASTER, the receipt timer exactly in LISTENING, SLAVE and PASSIVE, the peer delay timer exactly in MASTER, PASSIVE and a peer-to-peer SLAVE after its first Sync, and a slave-only clock is never MASTER or PASSIVE |
| PortRuns.MasterAnnouncesItself | esl/sw/protocol.cpp:396-470 | In every run from power-up a port that is MASTER, before or after its decision, holds the data sets of its own grandmaster, so it announces exactly the record that its own comparison uses for itself |
| PortRuns.PassiveShowsOwnUtc | esl/sw/bmc.cpp:172-236 | In every run from power-up a MASTER or PASSIVE port, and one that decides to be PASSIVE, shows its own UTC offset and marks it as not valid, whatever its parent announces |
| PortRuns.PortElects | esl/sw/protocol.cpp:343-364 | The decision step of a port that holds all the others is the election's, state and data sets |
| PortRuns.EveryOffsetMeasures | esl/sw/protocol.cpp:883-1006 | In every run from power-up every offset update belongs to a Sync of its own, and if that took a delay to arrive at a clock ahead by some offset, transparent clocks apart, the servo sees delay plus offset |
| PortRuns.EveryDelayMeasures | esl/sw/protocol.cpp:1116-1146 | In every run from power-up every delay update uses the send time of a request of its own, the one answered exactly if the latest was timestamped, and yields half the round trip with the offset taken out |
| PortRuns.TwoStepSync | esl/sw/protocol.cpp:883-1006 | A Sync and its Follow_Up make one offset update with the time of the one, the origin of the other and both corrections |
| PortRuns.TwoStepSyncRecovers | esl/sw/protocol.cpp:984-1006 | So whatever transparent clocks added to either message, the servo sees path delay plus offset |
| PortLog.RunIsJustified | esl/sw/protocol.cpp:485-1382 | Every action of every run comes from the message or timestamp received in its own pass: times, sender, sequence and correction are those that were brought |
| PortLog.EveryOffsetUsesOrigin | esl/sw/protocol.cpp:883-1006 | In every run from power-up every offset update uses as send time the origin carried by the one-step Sync, or by the Follow_Up, that the port received in that pass |
| PortRules.OneStepSync | esl/sw/protocol.cpp:907-924 | A one-step Sync of the parent makes exactly one offset update, with the origin it carries, its receive time and its correction |
| PortRules.OneStepSyncRecovers | esl/sw/protocol.cpp:907-924 | So whatever transparent clocks added to it, the servo sees path delay plus offset |
| PortRules.SyncIsHeardIff | esl/sw/protocol.cpp:855-942 | A Sync counts if and only if a port that takes time has it from its parent and not from itself; any other leaves the port as it was |
| PortRules.FirstSyncStartsRequestsIff | esl/sw/protocol.cpp:859-882 | The first Sync counted, and no later one, starts the request timer of the configured mechanism at its interval |
| PortRules.FollowUpIsUsedIff | esl/sw/protocol.cpp:945-1032 | A Follow_Up counts if and only if a port that takes time has it from its parent with the sequence id of the Sync it waits on, and then once |
| PortRules.DelayRespIsUsedIff | esl/sw/protocol.cpp:1080-1188 | A Delay_Resp counts if and only if a waiting slave has it from its parent, for itself and its latest request, and then once |
| PortRuns.DelayExchange | esl/sw/protocol.cpp:1116-1175 | A timestamped Delay_Req and its answer make one delay update with the latency-corrected send time, and set the request interval |
| PortRuns.PeerExchange | esl/sw/protocol.cpp:1275-1370 | A two-step peer exchange makes one update with all four times in their places and both corrections |
| PortRules.OneStepPeerExchangeRecovers | esl/sw/protocol.cpp:1242-1323 | A timestamped peer request and a one-step answer whose correction holds the turnaround give the servo the mean of the two path delays |
| PortRules.TwoStepPeerExchangeRecovers | esl/sw/protocol.cpp:1325-1382 | The four times of a two-step peer exchange with both corrections give the mean of the two path delays, whatever the responder's clock shows |
| PortRules.PDelayRespIsUsedIff | esl/sw/protocol.cpp:1242-1323 | A Pdelay_Resp counts exactly for a measuring port it answers, by port and latest sequence id; which of the times, correction and updates it then leaves, one-step and two-step; otherwise nothing changes |
| PortRules.PDelayFollowUpIsUsedIff | esl/sw/protocol.cpp:1325-1382 | Its Follow_Up counts if and only if a SLAVE or MASTER has it for the latest request and the response it last took; the update then has its origin with the three other times as they stand, and the port keeps all four |
| PortRules.OtherMechanismIsIgnored | esl/sw/protocol.cpp:560-660 | Messages of the other delay mechanism change nothing, even when cut short |
| PortRules.ReceivingFaultsIff | esl/sw/protocol.cpp:485-660 | Receiving makes a port FAULTY if and only if the receive fails, the header is short, a message that is looked at is cut short, or a reply that is due cannot be sent |
| PortRules.SendingFaultsIff | esl/sw/protocol.cpp:438-470 | The periodic messages make a MASTER FAULTY if and only if a Sync or Announce is due, or none was announced yet, and cannot be sent, the timers counting on through each other's polls |
| PortRules.SlaveRequestsIff | esl/sw/protocol.cpp:376-432 | While no receipt timeout is due, a port that is not MASTER sends in a pass exactly the request of its mechanism that is due at its poll, becomes FAULTY if and only if it cannot send it, and otherwise only its timers move |
| PortRules.IssueOutcome | esl/sw/protocol.cpp:1714-1835 | A Delay_Req that is sent takes the next sequence id and gives its timer, and no other, the fresh random interval; a Pdelay_Req takes its next sequence id and moves no timer; either leaves the port FAULTY if it cannot be sent |
| PortRules.MasterRequestsIff | esl/sw/protocol.cpp:438-466 | A MASTER whose Sync and Announce went out sends a peer request if and only if the mechanism is peer-to-peer and it is due, and becomes FAULTY if and only if it cannot |
| PortRules.NoSlaveOnlyMaster | esl/sw/protocol.cpp:391-474 | In every run no pass leaves a clock that is slave-only, by option or by class 255, in MASTER, even if its own decision put it there |
| PortRules.InitialisesIff | esl/sw/protocol.cpp:307-332 | An initialisation ends in LISTENING with its own data sets, an empty table and a fresh servo if the network opens, and in FAULTY with everything else as it was if not |
| PortRules.AnnouncesAgainIff | esl/sw/protocol.cpp:181-189 | A state change forgets that the port has announced itself if and only if it enters LISTENING from another state |
| PortRules.NewSlaveForgets | esl/sw/protocol.cpp:258-298 | Entering SLAVE leaves of earlier exchanges the sequence ids, the Sync time, the corrections and the interval and nothing else: two ports have the same pairing afterwards if and only if they agreed on these |
| PortRules.NewSlaveTimers | esl/sw/protocol.cpp:273-282 | Entering SLAVE gives the receipt and the operator timer their whole intervals and clears their latches |
| PortRules.NewSlaveIgnoresOldAnswers | esl/sw/protocol.cpp:258-298 | A Follow_Up or Delay_Resp that comes before any Sync or request of the new slave changes nothing |
| PortFailures.SlaveTimersState | esl/sw/protocol.cpp:387-435 | When its requests can be sent, a port that is not master changes state in its timer polls exactly if the receipt timer is due, to MASTER or, if slave-only, LISTENING |
| PortFailures.LatchedReceiptLeavesFault | esl/sw/protocol.cpp:367-411 | After a receive error the pass ends in FAULTY, unless a receipt expiry was latched: then in MASTER, or LISTENING if slave-only |
| PortFailures.TimeoutWithUpdateFollowsOldEntry | esl/sw/protocol.cpp:353-411 | After a timeout the next decision is SLAVE if and only if an update was pending and the clock is slave-only, and then it follows entry zero of the table just emptied |
| PortFailures.LatchedRequestFollowsIntoMaster | esl/sw/protocol.cpp:387-430 | A slave ends its polls as MASTER with the Delay_Req timer running if and only if both timers were latched or due at the first poll; exactly then it has sent a Delay_Req as MASTER |
| PortPaths.BlindRequestRun | esl/sw/protocol.cpp:1713-1777 | A run from power-up that combines the send time of one request with the answer to the next |
| PortPaths.WrappedRequestRun | esl/sw/protocol.cpp:1117-1120 | A run from power-up to the 65536th request, timestamped and waited for, that no response can answer |
| PortPaths.MixedFollowUpRun | esl/sw/protocol.cpp:970-1001 | A run from power-up in which the Sync of one master is completed by the Follow_Up of a better one |
| PortPaths.ReinitializedRun | esl/sw/bmc.cpp:130-134 | A run from power-up in which a port that has initialised again hears one master and follows another, from before |
| PortPaths.TimeoutWithUpdateRun | esl/sw/protocol.cpp:353-411 | A run from power-up to a slave-only port that has forgotten all masters and next follows one of them |
| PortPaths.LatchedReceiptRun | esl/sw/protocol.cpp:367-411 | A run from power-up in which a receive error makes a listening port MASTER |
| PortPaths.RequestIntoMasterRun | esl/sw/protocol.cpp:387-430 | A run from power-up to a MASTER whose Delay_Req timer runs |
| PortPaths.RepeatedPeerFollowUpRun | esl/sw/protocol.cpp:1350-1370 | A run from power-up in which one Pdelay_Resp_Follow_Up, received twice, drives two updates |
| PortPaths.WrappedPeerRequestRun | esl/sw/protocol.cpp:1275-1370 | A run from power-up to the 65536th peer request, which no response and no Follow_Up can answer |
| Protocol.PtpProtocol.GoTo | esl/sw/protocol.cpp:112-304 | Leaving and entering tasks on the arrays of timers and the fields of the clock are together the state change function |
| Protocol.PtpProtocol.ReceiveAnnounce | esl/sw/protocol.cpp:663-800 | The Announce handler in every state, updating timers, table and data sets in place, against its function |
| Protocol.PtpProtocol.ReceiveSync | esl/sw/protocol.cpp:825-942 | The Sync handler with the first-Sync timer start against its function |
| Protocol.PtpProtocol.ReceiveFollowUp | esl/sw/protocol.cpp:945-1032 | The Follow_Up handler against its function |
| Protocol.PtpProtocol.ReceiveDelayResp | esl/sw/protocol.cpp:1080-1188 | The Delay_Resp handler with the new request interval against its function |
| Protocol.PtpProtocol.ReceivePDelayResp | esl/sw/protocol.cpp:1242-1323 | The Pdelay_Resp handler against its function |
| Protocol.PtpProtocol.ReceivePDelayRespFollowUp | esl/sw/protocol.cpp:1325-1382 | The Pdelay_Resp_Follow_Up handler against its function |
| Protocol.PtpProtocol.SendDelayReq | esl/sw/protocol.cpp:1713-1777 | Issuing a Delay_Req, timestamped, blind or failed, against its function |
| Protocol.PtpProtocol.SendPDelayReq | esl/sw/protocol.cpp:1780-1835 | Issuing a Pdelay_Req against its function |
| Protocol.PtpProtocol.Decide | esl/sw/protocol.cpp:343-364 | The decision step against its function |
| Protocol.PtpProtocol.HandleAnnounceTimeout | esl/sw/protocol.cpp:387-408 | The announce receipt timeout against its function |
| Protocol.PtpProtocol.DoPass | esl/sw/protocol.cpp:336-482 | One pass of the main loop over the timer, table and clock objects, in the original order of polls and handlers, against its function |
| Protocol.PtpProtocol.Initialize | esl/sw/protocol.cpp:307-333 | Initialisation, or the fault when the network cannot be opened, against its function |
| Protocol.PtpProtocol.ProtocolExec | esl/sw/protocol.cpp:65-107 | The main loop over any number of passes leaves the objects where the run of the state machine ends, and stops early only when the network cannot be opened |
| Frame.AssembledResidue | esl/sw/dep/transport.cpp:207-337 | The check value over any assembled frame is 0x2144DF1C |
| Frame.TypeFound | esl/sw/dep/transport.cpp:427-441 | Behind zero, one or two tags the parser reads the type field that was written |
| Frame.UpperIsLaid | esl/sw/dep/transport.cpp:242-307 | The headers that are written put protocol number, port and inner type where the parser reads them |
| Frame.OverheadFound | esl/sw/dep/transport.cpp:443-515 | From those octets the parser computes the header length of every combination, and rejects only PPPoE without IP |
| Frame.ParseUndoesAssemble | esl/sw/dep/transport.cpp:411-538 | Parsing any buffer that starts with a frame finds the message at its place with its own length field and type, except exactly PPPoE without IP |
| Frame.TagsSkipped | esl/sw/dep/transport.cpp:427-441 | Exactly which tags are skipped in any buffer: none, one customer tag, or two; behind a service tag a second tag is taken for granted |
| Frame.CarriedIsFound | esl/sw/dep/transport.cpp:443-538 | Any buffer whose type field, inner types, protocol numbers and port announce a message in one of the supported layerings is parsed as that message |
| Frame.FoundIsCarried | esl/sw/dep/transport.cpp:443-538 | And no other buffer is parsed as a message: whatever is found stands in one of these layerings |
| Frame.FrameIsAddressed | esl/sw/dep/transport.cpp:220-337 | Whatever the tags and encapsulation, hardware, IPv4 and IPv6 addresses of destination and source stand at their places, the UDP port is 319 for event messages and 320 for others, and the header checksum of IPv4 and the UDP checksum are the constants 0 and 0xABCD |
| Frame.TagsAndShim | esl/sw/dep/transport.cpp:225-262 | One or two VLAN tags with their types and identifiers, the SNAP header with control octet 0 and the PPPoE header of zeros, each with the type of what follows |
| Frame.NoIpBehindLengthOf1500 | esl/sw/dep/transport.cpp:242-307 | Among all length fields, 1500 is the one for which the SNAP header announces IP and no IP header is written |
| Frame.RoundTripIff | esl/sw/dep/transport.cpp:517-538 | Length and octets handed up are those of the message exactly when the message's own length field is true |
| Frame.FrameLength | esl/sw/dep/transport.cpp:316-327 | The exact frame length for every combination, with padding to 64 octets |
| Frame.LengthFieldsAreTrue | esl/sw/dep/transport.cpp:260-305 | The IP and UDP length fields count the octets from their header to the end of the message, with the two pad octets for IPv6 |
| Frame.SnapLengthCountsWholeFrame | esl/sw/dep/transport.cpp:354-369 | The SNAP length field also counts addresses, itself and the check sequence, 18 or 20 octets more than follow it |
| Frame.MessagesFit | esl/sw/dep/transport.cpp:207-337 | Messages up to 172 octets fit the frame buffer in every combination, 173 do not in one |
| Frame.FcsOctetsAt | esl/sw/dep/transport.cpp:331-334 | The four shifted and masked octets are the check sequence |
| Frame.Transport.AssembleFrame | esl/sw/dep/transport.cpp:207-337 | The writes through a running index leave the specified frame and return its length |
| Frame.Transport.Transmit | esl/sw/dep/transport.cpp:339-402 | Type fields and port are chosen so that the buffer holds the frame for the message |
| Frame.Transport.ParseFrame | esl/sw/dep/transport.cpp:411-538 | The nested tests on the receive buffer compute the parse function |
| Messages.HeaderWrites | esl/sw/dep/msg.cpp:1320-1338 | The common header writes clear the correction, set version, domain, port and the log interval 0x7F, and leave octets 2, 3, 5, 7, 16 to 19 and 30 to 32 as they were, and octet 6 unless the clock is two-step |
| Messages.MessageWrites | esl/sw/dep/msg.cpp:1344-1734 | All octets of a packed message, field by field, over any buffer contents |
| Messages.KindsOfMessage | esl/sw/dep/msg.cpp:1344-1734 | The seven packers write the message types, control fields and log intervals that section 13.3.2 of IEEE 1588-2008 assigns, messages of their own carry no correction, and answers carry the sequence id of their request |
| Messages.KindSurvives | esl/sw/dep/msg.cpp:1344-1734 | From any buffer the receiver unpacks type, control field, log interval, sequence id, length, sender, transport, version and correction as the packer meant them |
| Messages.HeaderRoundTrip | esl/sw/dep/msg.cpp:1289-1338 | Unpacking a packed message gives back every header field, with exactly those stale places taken from the buffer |
| Messages.BodyRoundTrip | esl/sw/dep/msg.cpp:1368-1753 | Timestamp and requesting port come out as put in |
| Messages.SyncTimeRoundTrip | esl/sw/dep/msg.cpp:1344-1485 | A time sent in Sync or Follow_Up arrives unchanged if and only if its seconds fit 48 bits |
| Messages.RequestRoundTrip | esl/sw/dep/msg.cpp:1487-1546 | The two requests carry sequence id, sender and the time put in |
| Messages.ResponsesNameTheirRequest | esl/sw/dep/msg.cpp:1548-1734 | The three responses carry sequence id and sender of the request and the time put in; only Delay_Resp and Pdelay_Resp_Follow_Up carry its correction |
| Messages.AnnounceRoundTrip | esl/sw/dep/msg.cpp:1386-1442 | An Announce comes out as put in, its whole header included, exactly when its UTC offset fits 16 bits; octet 46 and the flags of octet 7 stay as they were |
| Messages.AnnouncesItselfIff | esl/sw/dep/msg.cpp:1402-1413 | What a clock announces is the record its own comparison uses for itself exactly if its data sets name it as grandmaster with its own priorities at distance zero |
| Messages.FlagsAreBits | esl/sw/constants.h:293-300 | The six flags of octet 7 are its six lower bits, each at its own place |
| Messages.PeerStoresAnnounce | esl/sw/protocol.cpp:2008-2030 | What a receiver unpacks of the Announce of a clock that leads is a record for which the election theorem holds |
| Messages.MessageSurvivesFrame | esl/sw/dep/msg.cpp:1344-1734 | Any packed message is found unchanged behind every encapsulation that carries PTP |
| Messages.PackHeader | esl/sw/dep/msg.cpp:1320-1338 | The header stores leave the specified buffer |
| Messages.Pack | esl/sw/dep/msg.cpp:1344-1734 | The stores of the pack functions leave the specified buffer |
| Messages.PackAnnounce | esl/sw/dep/msg.cpp:1386-1414 | The Announce stores leave the specified buffer |
| Xgmii.DataPhase | esl/vl/tx_ptp_buf.v:89-188 | From any data cycle on, the remaining octets, one TERMINATE and idle lanes leave the transmitter |
| Xgmii.TransmitterEmitsFrame | esl/vl/tx_ptp_buf.v:89-188 | From idle, one start pulse puts one START, preamble, delimiter, octets and one TERMINATE on the lanes, for every length register value, and the transmitter is idle again |
| Xgmii.StartIsIgnoredIff | esl/vl/tx_ptp_buf.v:89-188 | A start pulse is ignored if and only if a transmission is going on |
| Xgmii.ReceiveData | esl/vl/rx_ptp_buf.v:35-63 | Data lanes fill the receive buffer from the counter on and stop at its end |
| Xgmii.ReceiverLatchesFrame | esl/vl/rx_ptp_buf.v:35-63 | From any receiver state the length and octets between START and TERMINATE are latched, up to 504 |
| Xgmii.FrameIsUnfinished | esl/vl/rx_ptp_buf.v:38-66 | From START on and whatever was received before, the preamble stands in the first eight octets and neither length nor finished flag is up until TERMINATE, so every frame raises the flag anew |
| Xgmii.RoundTripIff | esl/vl/tx_ptp_buf.v:89-188 | The receiver latches the length that was sent if and only if it is between 8 and 504, and then the same octets |
| Xgmii.OrderedRoundTripIff | esl/sw/dep/transport.cpp:389-399 | From the write of the length word to the receiver: a frame of n octets arrives with its length and its octets if and only if n is between 8 and 504 |
| Xgmii.RepackEndsIff | esl/vl/rx_ptp_buf.v:67-79 | The repacking loop ends if and only if the frame has at most 500 octets |
| Xgmii.TxPtpBuf.TxClock | esl/vl/tx_ptp_buf.v:89-188 | One transmit clock edge against the next-state function |
| Xgmii.LengthWordIff | esl/vl/tx_ptp_buf.v:31-42 | The word the software writes for n octets starts a transmission of n octets if and only if n is below the 512 octets of the buffer |
| Xgmii.OtherBitsAreIgnored | esl/vl/tx_ptp_buf.v:31-42 | Of any written word only the nine low bits and bit 15 decide length and start |
| Xgmii.TxPtpBuf.WriteLength | esl/vl/tx_ptp_buf.v:31-42 | The bus write of the length register keeps nine bits and starts a transmission exactly if the start bit is up |
| Xgmii.RxPtpBuf.RxClock | esl/vl/rx_ptp_buf.v:35-63 | The lane loop of one receive clock edge against the lane function |
| Xgmii.RxPtpBuf.ToRdBuff | esl/vl/rx_ptp_buf.v:67-79 | Given enough turns the loop ends if and only if the frame has at most 500 octets, and then the bus buffer holds exactly the received octets, rounded up to words |
| EndToEnd.SendableCrossesLink | esl/sw/dep/transport.cpp:339-402 | Any packed message, framed, sent over the lanes, received, repacked and parsed is the same message with a good check sequence, whatever the buffers held before |
| EndToEnd.MessageCrossesLink | esl/sw/dep/msg.cpp:1344-1734 | So for the seven messages other than Announce |
| EndToEnd.AnnounceCrossesLink | esl/sw/protocol.cpp:2008-2030 | And the Announce of a master arrives as the record that the election at the other end compares for that master |
| EndToEnd.RunningMasterIsHeard | esl/sw/protocol.cpp:438-470 | So does the Announce that a port sends in any run from power-up |

## Left out

- Management messages, their packing and their handlers, which write the port state directly: the run model has none.
- Signaling messages are received and ignored, as in the original, where their handler is empty.
- Floating point: interval computation, the random re-arm of the Delay_Req timer and the ppm display. Intervals are
  given in ticks, those of a changing logarithm by a function, and the attenuation floor is its truncated value 1.
- Automatic tuning of the delay limit, discarded-packet counting, statistics, display, logging, option parsing and
  signals.
- The timestamp units, clock-domain crossing, the three-word read of the counter and the bus side of the frame buffers
  (start-pulse synchronisation, data-ready handshake): inputs are taken as stable and words as four octets.
- Network and hardware waits: send success, received messages, transmit timestamps and ingress times are arbitrary
  inputs of each pass. In the run model an event message carries its receive time as already rebuilt.
- Sequence counters of Sync and Announce, their log intervals and the stale octets of the receive buffer behind a message.
- The port model keeps no running copy of offset and mean delay in the current data set; the servo model has them.
- Signal-level behaviour of `gfe_cvt.v` and `xgmii_dr2sr.v`.
- The result of `memcmp` is taken as its sign; the original keeps it in 16 bits.
- Frame.Transport.AssembleFrame: asks that the frame fits its 256-octet buffer, which the original does not check.
- Frame.Transport.Transmit: asks for the same; `Frame.MessagesFit` shows that every message does fit.
- Xgmii.RxPtpBuf.ToRdBuff: takes a bound on the number of turns, because the original loop may not end.
- Messages.Pack: one method for the seven packers other than Announce, with what they write as its argument.
