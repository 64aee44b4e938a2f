# A verified model of MacHPSDR's numerical and streaming cores

MacHPSDR is a software-defined-radio application. This project models the parts of it whose
behaviour is a matter of arithmetic, of state kept between calls, or of steps interleaved with
another thread, and proves what they keep over every input and every run:

- **the satellite propagator** (`Integrator`, `IntegratorRuns`, `DeepSpace`, `DeepSpaceTerms`,
  `Kepler`, `Osculation`, `Orientation`, `Propagation`, `Observer`, `Sky`, on `Trigonometry` and
  `Reals`): the resonance integrator of `Deep()` and the memory it keeps between queries, the dot
  terms as harmonics and their derivative, the lunar-solar cache and its waves, Kepler's equation,
  the short-period algebra, the orientation vectors, and what an observer sees;
- **calendar arithmetic** (`Gregorian`, `Calendar`, `CalendarInverse`, `CalendarClock`): the floor
  formulas of `sgp_time.c` against the calendar's own rules of counting days;
- **the CRC-16** (`Crc`, `CrcDetection`, `CrcDistance`): the table loop as bit-serial division,
  which errors it detects in messages of any length, and in how many bits two messages with one
  checksum differ;
- **the AM demodulator** (`AllPass`, `Demodulator`, `Locking`, `Amd`, `AmdDesign`): four all-pass
  cascades run in place in shift arrays, their energy, the phase-locked loop and the poles its gains
  place, and what a locked loop gives back;
- **rings, streams and packets** (`TapRing`, `NullStream`, `Pcm24`, `P2Packet`, `Pacing`,
  `PacedRates`, `Wideband`, `P2Board`, `P2Witness`, `P2Signal`, `Metis`, `MetisSignal`,
  `AppRegisters`, `Collect`, on `Integers`): a ring overwritten while it is read, a locked stream
  whose readers release the lock while they wait, two emulated radio boards, the tones and rates of
  their streams, the program's register blocks that they obey, and the collector of a growing list;
- **the growable string** (`VString`).

A `double` is a `real`. The C library's functions are arbitrary functions, and a lemma names the
laws of sine, cosine, arc tangent, exponential or square root that it uses (`Trigonometry.Trig`,
`Demodulator.Maths`). Records that the C code updates in place are classes, and its loops are loops
that are proved against functions of the state; what the functions mean is then proved as lemmas.
Another thread is a method that does any number of its atomic steps, called at every point where it
may run. Clocks are inputs that do not go back. Whether send number k of a turn of a board's main
loop is refused is an arbitrary function of k. Where the source divides by a zero of either sign,
the sign is a parameter.

Findings, each stated exactly in the table:

- `dpsec` answers every query of a run as a first query would, for every resonance, if and only if
  no back-step has landed off the epoch since the last restart (`DeepSpace.FreshIff`,
  `DeepSpace.AnswersIff`); out 1500 minutes and back to 1000 is such a run (`DeepSpace.StaleRun`).
- `AcTan` is not the angle of its direction straight down, where its constant is not three quarters
  of its own turn (`Trigonometry.AcTanNamesIff`); so neither are the argument of latitude there
  (`Propagation.AngleOfPlaceIff`) and the right ascension on the negative y axis (`Sky.CelestialIff`).
- A satellite due east is shown due west, and one due west due east, when the southern component is
  a positive zero (`Observer.AzimuthIff`).
- `Calendar_Date` rolls a date over in the last half millisecond of a day, while `Epoch_Time` keeps
  the fraction: `Julian_Date_of_Epoch` is then a day late (`CalendarClock.EpochRoundTrip`,
  `CalendarClock.LastOfTheDay`).
- `Time_of_Day` writes the last half second of a day as 00:00:00, and outside the last half
  millisecond `Calendar_Date` keeps the old date with it (`CalendarClock.ClockRoundTripIff`,
  `CalendarClock.QuarterBeforeMidnight`).
- Dates before 15 October 1582 come back only in the century in which the two calendars agree
  (`CalendarInverse.RoundTripIff`, `CalendarInverse.EveOfInception`).
- The checksum misses an error in two bits if and only if they are a multiple of 32767 bits apart
  (`CrcDistance.TwoBitsMissedIff`).
- The reader's rule for the tap ring is safe if and only if the ring has room for three blocks
  (`TapRing.RoomSafeIff`); the installed ring has room for eight.
- The wideband packets of every stream are whole bursts numbered from 0 if and only if no send was
  refused inside a burst (`P2Board.Board.BurstsWhole`): after one, the next stream begins in the
  middle of a burst, since neither a start nor a stop resets its number (`P2Witness.TornBurst`).
- A receive-specific block of the program is ignored by the emulated board if and only if its
  sequence number begins with the two bytes of a protocol-1 command (`AppRegisters.TakenIff`).
- A DDC that a sync register names beside a lower one is carried by no packet, unless another
  register carries it (`P2Board.CarriedIff`, `P2Board.SecondFollowerLost`).

## Model

| member | source | states |
|---|---|---|
| `DeepSpace.FreshIff` | sgp4sdp4/sgp4sdp4.c:841-936 | for any one sine and cosine with a period, after a run of queries the integrator state is the one integrated \|atime\|/720 steps from epoch, for every resonance, or for every one with the mean motion and phases of a synchronous orbit, if and only if no back-step has landed on a nonzero atime since the last restart |
| `DeepSpace.AnswersIff` | sgp4sdp4/sgp4sdp4.c:841-936 | and the xn and xl answered are those of a first query under the same condition |
| `DeepSpace.StaleRun` | sgp4sdp4/sgp4sdp4.c:841-936 | out 1500 minutes and back to 1000 the state and the xn answered differ from those of a first query, for a synchronous orbit of one turn a sidereal day and any such sine and cosine |
| `IntegratorRuns.FreshUnlessStale` | sgp4sdp4/sgp4sdp4.c:841-936 | without such a back-step the state is the fresh one, whatever the dot terms |
| `IntegratorRuns.StaleAnswers` | sgp4sdp4/sgp4sdp4.c:841-936 | after such a back-step dot terms that double xldot at every step show it in the xn answered |
| `IntegratorRuns.OneWayIsFresh` | sgp4sdp4/sgp4sdp4.c:841-936 | along nondecreasing t >= 0, or nonincreasing t <= 0, every query gives the xn and xl of a first query |
| `Integrator.QueryOnGrid` | sgp4sdp4/sgp4sdp4.c:841-936 | a query leaves atime at the multiple of 720 next to t on the epoch's side |
| `Integrator.TargetWithin` | sgp4sdp4/sgp4sdp4.c:908-926 | that grid point lies between 0 and t, less than 720 minutes from t |
| `DeepSpace.Deep.Dpinit` | sgp4sdp4/sgp4sdp4.c:815-825 | the integrator starts at the epoch with an empty cache |
| `DeepSpace.Deep.Integrate` | sgp4sdp4/sgp4sdp4.c:841-930 | the two nested loops end, from any state on the grid, at the state of the query with the derivatives taken there and ft = t - atime |
| `DeepSpace.Deep.Dpsec` | sgp4sdp4/sgp4sdp4.c:828-939 | the secular elements, and in resonance xn and the longitude read off the state of the whole run of queries |
| `DeepSpaceTerms.RatesAreHarmonics` | sgp4sdp4/sgp4sdp4.c:882-916 | for both resonances the dot terms are those of the geopotential's harmonics, each with its multiples of perigee and longitude and its phase: xndot their sum, xnddt xldot times the sum of their derivatives in the longitude |
| `DeepSpaceTerms.HalfDaySlope` | sgp4sdp4/sgp4sdp4.c:889-916 | in a half-day resonance xnddt is xldot times the derivative of xndot in xli, by the values of xndot at shifted longitudes alone |
| `DeepSpaceTerms.SynchronousSlope` | sgp4sdp4/sgp4sdp4.c:883-916 | and in a synchronous one, of each of the three harmonics once, twice and three times round |
| `DeepSpaceTerms.ReadOutMeets` | sgp4sdp4/sgp4sdp4.c:918-930 | the xn and xl read off 720 minutes after a grid point are those of the next one, forward and back |
| `DeepSpaceTerms.SecularRates` | sgp4sdp4/sgp4sdp4.c:829-833 | elements of two instants differ by the secular rates times the time between |
| `DeepSpaceTerms.SecularTurned` | sgp4sdp4/sgp4sdp4.c:834-838 | a negative inclination changes its sign, the node goes half a turn on, and perigee plus node stays |
| `DeepSpace.Deep.Dpper` | sgp4sdp4/sgp4sdp4.c:941-1015 | the terms applied are those computed from scratch at savtsn, less than 30 minutes from t, over every run of calls; with a zero sine of the inclination only perigee and node are open |
| `DeepSpaceTerms.PhaseIsWave` | sgp4sdp4/sgp4sdp4.c:946-950 | f2 and f3 are a wave of twice the body's angle, a quarter high |
| `DeepSpaceTerms.TermsAreWaves` | sgp4sdp4/sgp4sdp4.c:944-969 | every lunar-solar term is the sun's wave and the moon's, of their angles zm + 2 e sin zm, by its own coefficients |
| `DeepSpaceTerms.DirectMeans` | sgp4sdp4/sgp4sdp4.c:971-983 | applied directly, sinio times the change of the node is its term, perigee and cosio times node share the perigee's terms, and the others change by theirs |
| `DeepSpaceTerms.LyddaneMeans` | sgp4sdp4/sgp4sdp4.c:984-1012 | near the equator the new node is the direction that, seen from the old one, has the changed sine of the inclination along and the node's term across; longitude, perigee and cosine times node change together by their terms |
| `DeepSpace.LyddaneNode` | sgp4sdp4/sgp4sdp4.c:998-1008 | the patched Lyddane modification never moves the node by more than half a turn |
| `DeepSpaceTerms.UnwrappedIff` | sgp4sdp4/sgp4sdp4.c:1001-1008 | it moves it by a turn if and only if it is more than half a turn away |
| `Orientation.OverThePole` | sgp4sdp4/sgp4sdp4.c:834-838 | turning a negative inclination over the pole moves neither orientation vector |
| `Kepler.SolveKepler` | sgp4sdp4/sgp4sdp4.c:185-202 | from any elements the loop starts at capu and goes from angle to angle by the step whose product with the divisor is the residual of Kepler's equation; it stops at the first step within the tolerance, or after 11 passes; the angle whose sine and cosine it hands on is the last one it stepped from, and stopped by the tolerance the residual there is at most 1e-6 (1 + sqrt(elsq)); only outside an ellipse may a zero divisor lose the angle |
| `Osculation.KeplersEquation` | sgp4sdp4/sgp4sdp4.c:178-196 | that residual is of Kepler's equation itself: mean anomaly minus E minus e sin E, with the angle counted from the node |
| `Kepler.Divisor` | sgp4sdp4/sgp4sdp4.c:197-197 | Newton's divisor stays within 1 minus and 1 plus the eccentricity, and off zero in an ellipse |
| `Kepler.OnUnitCircle` | sgp4sdp4/sgp4sdp4.c:205-220 | from any angle the loop may stop at, r and pl are positive and cosu, sinu lie on the unit circle |
| `Kepler.PlaneLength` | sgp4sdp4/sgp4sdp4.c:205-218 | the in-plane vector before scaling has length exactly 1 - ecose |
| `Kepler.Conic` | sgp4sdp4/sgp4sdp4.c:205-218 | the place satisfies the equation of the orbit, pl = r (1 + e cos v), and r e sin v = a betal esine |
| `Kepler.Circular` | sgp4sdp4/sgp4sdp4.c:205-218 | in a circular orbit the place is the angle itself |
| `Kepler.DoubleAngle` | sgp4sdp4/sgp4sdp4.c:220-221 | sin2u and cos2u are a true double angle |
| `Osculation.VisViva` | sgp4sdp4/sgp4sdp4.c:205-214 | before the updates the speed squared is xke² (2/r - 1/a) |
| `Osculation.AreaLaw` | sgp4sdp4/sgp4sdp4.c:209-213 | and r times the transverse speed is xke sqrt(pl), r times the radial one xke sqrt(a) e sin E |
| `Osculation.ShortPeriods` | sgp4sdp4/sgp4sdp4.c:222-233 | the six updates, each cleared of its divisor: radius, node, inclination, argument, and the radial and transverse speeds |
| `Osculation.ArgumentFrom` | sgp4sdp4/sgp4sdp4.c:219-228 | off straight down, uk differs from an angle of the place by its update and nothing else |
| `Orientation.OrientationVectors` | sgp4sdp4/sgp4sdp4.c:236-251 | the orientation vectors are orthonormal and their normal depends on node and inclination alone |
| `Orientation.FromNode` | sgp4sdp4/sgp4sdp4.c:236-251 | the position vector is uk on from the node's direction in the orbit's plane, and the other a quarter turn on from it |
| `Orientation.StateOnPair` | sgp4sdp4/sgp4sdp4.c:252-258 | lengths, angle and moment of position and velocity come from rk, rdotk and rfdotk alone |
| `Propagation.AngleOfPlaceIff` | sgp4sdp4/sgp4sdp4.c:219-219 | the argument of latitude AcTan returns has exactly cosu and sinu if and only if the place is not straight down |
| `Propagation.Satellite.Finish` | sgp4sdp4/sgp4sdp4.c:424-498 | from mean elements to pos and vel: the angle is the one Kepler's equation is solved with from capu, its residual bounded when the tolerance stopped the loop; pos.pos = rk², pos.vel = rk rdotk, vel.vel = rdotk² + rfdotk², and the moment along the osculating normal |
| `Trigonometry.AcTanNames` | sgp4sdp4/sgp_math.c:140-157 | AcTan is the angle of the direction it is given, except straight down |
| `Trigonometry.AcTanNamesIff` | sgp4sdp4/sgp_math.c:140-157 | it is so if and only if the direction is not straight down |
| `Observer.TopocentricLength` | sgp4sdp4/sgp_obs.c:106-114 | the turn to the observer's horizon keeps the range |
| `Observer.TopocentricMeans` | sgp4sdp4/sgp_obs.c:106-114 | the three components are those along the zenith of the observer's latitude and sidereal angle, a quarter turn below it along the meridian, and a quarter turn on along the equator |
| `Observer.ThereAndBack` | sgp4sdp4/sgp_obs.c:164-176 | the rotation of Calculate_RADec_and_Obs undoes the one of Calculate_Obs |
| `Observer.AzimuthNames` | sgp4sdp4/sgp_obs.c:112-116 | off due east and west the azimuth is the angle of the horizontal component, from north through east |
| `Observer.AzimuthIff` | sgp4sdp4/sgp_obs.c:112-116 | for every horizontal component it is so if and only if the southern one is off zero or a negative zero |
| `Observer.AzimuthAlways` | sgp4sdp4/sgp_obs.c:112-116 | in every case it is the angle of that component with east and west exchanged where the southern one is a positive zero |
| `Observer.AzimuthInTurn` | sgp4sdp4/sgp_obs.c:112-116 | it is within one turn |
| `Observer.DirectionOfRange` | sgp4sdp4/sgp_obs.c:161-176 | wherever the azimuth is right, the direction rebuilt from azimuth and elevation is the unit vector along the range |
| `Sky.ObsSet.Calculate` | sgp4sdp4/sgp_obs.c:86-138 | at any nonzero range, azimuth, elevation and range are the polar form of the topocentric vector, east and west exchanged at a positive zero; straight up and down the elevation is a right angle; the range rate is the speed along the vector; visible is elevation >= 0 |
| `Sky.CelestialNames` | sgp4sdp4/sgp_obs.c:177-181 | right ascension and declination name the direction they are taken from |
| `Sky.CelestialIff` | sgp4sdp4/sgp_obs.c:177-181 | off the poles they do if and only if it is not along the negative y axis |
| `Sky.ObsAstro.Calculate` | sgp4sdp4/sgp_obs.c:140-183 | wherever the azimuth is right and the vector off the poles, right ascension (within one turn) and declination, times the range, are the vector from observer to satellite if and only if it is not along the negative y axis, for any latitude and sidereal angle |
| `Calendar.DOY` | sgp4sdp4/sgp_time.c:65-81 | the loop adds up the months before the date |
| `Calendar.CalendarDate` | sgp4sdp4/sgp_time.c:92-132 | the record gets the date of the instant's day number |
| `Calendar.TimeOfDay` | sgp4sdp4/sgp_time.c:136-154 | always a valid time, of the rounded second |
| `CalendarInverse.CalendarRoundTrip` | sgp4sdp4/sgp_time.c:92-132 | every date from the inception on, at every instant of its day but the last half millisecond, is given back, with no upper year |
| `CalendarInverse.DateIsCounted` | sgp4sdp4/sgp_time.c:104-131 | every day number from 2299161 on gives the date that counting days from the inception gives |
| `CalendarInverse.CountedNumber` | sgp4sdp4/sgp_time.c:282-300 | counting n days on adds n to the day number |
| `CalendarInverse.NextDayNumber` | sgp4sdp4/sgp_time.c:65-81 | the day after a date has the next number |
| `CalendarInverse.NumbersInOrder` | sgp4sdp4/sgp_time.c:282-300 | later dates have larger numbers |
| `CalendarInverse.RoundTripIff` | sgp4sdp4/sgp_time.c:104-131 | exactly which dates the two formulas give back |
| `CalendarInverse.EveOfInception` | sgp4sdp4/sgp_time.c:104-131 | 4 October 1582 comes back as 24 September |
| `CalendarClock.ClockRoundTripIff` | sgp4sdp4/sgp_time.c:136-167 | date and time fed back come within half a second of the instant if and only if the clock did not round up to midnight or the date rolled over with it |
| `CalendarClock.QuarterBeforeMidnight` | sgp4sdp4/sgp_time.c:136-167 | an instant that comes back a day early |
| `CalendarClock.EpochTime` | sgp4sdp4/sgp_time.c:48-60 | the element-set form of the instant's date and fraction |
| `CalendarClock.WholeCenturies` | sgp4sdp4/sgp_time.c:54-54 | the year in that form is what is left of whole centuries, with the sign of the year |
| `CalendarClock.EpochUndone` | sgp4sdp4/sgp_time.c:31-44 | for every date of 1957 to 2056 Julian_Date_of_Epoch undoes that form |
| `CalendarClock.EpochRoundTrip` | sgp4sdp4/sgp_time.c:31-60 | it returns the instant, or when Calendar_Date rolls over one day more |
| `CalendarClock.LastOfTheDay` | sgp4sdp4/sgp_time.c:31-60 | an instant that comes back a day late |
| `Crc.Crc16Ccitt` | hfdl_lib/hfdl_crc.c:4-47 | the table loop is bit-serial division of the whole message, for every start value |
| `Crc.TableStep` | hfdl_lib/hfdl_crc.c:42-46 | one table step is eight bit steps |
| `Crc.CrcSplits` | hfdl_lib/hfdl_crc.c:42-46 | the checksum splits over concatenation |
| `CrcDetection.CrcBitsLinear` | hfdl_lib/hfdl_crc.c:42-46 | the division is linear in message and start value |
| `CrcDetection.UndetectedIff` | hfdl_lib/hfdl_crc.c:42-46 | an error is missed if and only if it alone divides out |
| `CrcDetection.BurstDetected` | hfdl_lib/hfdl_crc.c:42-46 | any nonzero error within 16 consecutive bits changes the checksum, at any length |
| `CrcDetection.Burst17MissedIff` | hfdl_lib/hfdl_crc.c:42-46 | of the bursts that fill 17 bits, the generator's pattern and no other is missed |
| `CrcDetection.OddErrorDetected` | hfdl_lib/hfdl_crc.c:42-46 | any error in an odd number of bits changes the checksum |
| `CrcDetection.ParityConserved` | hfdl_lib/hfdl_crc.c:42-46 | the register's parity is its start's and the message's |
| `CrcDetection.Residue` | hfdl_lib/hfdl_crc.c:42-46 | a message with its checksum appended low byte first leaves 0, complemented 0xF0B8 (RFC 1662, Appendix C.2), and no other trailer does |
| `CrcDistance.OrderOfX` | hfdl_lib/hfdl_crc.c:42-46 | with no bits coming in, the register returns after exactly the multiples of 32767 steps |
| `CrcDistance.TwoBitsMissedIff` | hfdl_lib/hfdl_crc.c:42-46 | an error in two bits is missed if and only if they are a multiple of 32767 apart |
| `CrcDistance.DistanceFour` | hfdl_lib/hfdl_crc.c:42-46 | two different messages of one length up to 4095 bytes with one checksum differ in at least four bits |
| `AllPass.ShiftingIsNext` | wdsp/amd.c:168-188 | staging and shifting the array in place is one step of the recurrence, though stale values are shifted into the slots of the nodes |
| `AllPass.NodeIsSignal` | wdsp/amd.c:168-176 | over any run every node is the signal y[n] = c (x[n] - y[n-2]) + x[n-2] of its section |
| `AllPass.CascadeLossless` | wdsp/amd.c:168-188 | what comes out of a cascade and is then held is what went in and was held |
| `Demodulator.EnergyConserved` | wdsp/amd.c:152-189 | over any run, with the sideband mode changed at will, output power plus held energy is input power plus the energy held at first |
| `Demodulator.OutputBounded` | wdsp/amd.c:152-189 | the outputs never carry more than has gone in |
| `Demodulator.SeparatedIsTextbook` | wdsp/amd.c:160-180 | the four phase-shifted outputs are the textbook signals of their paths, two of them one sample late |
| `Demodulator.FiltersFed` | wdsp/amd.c:160-189 | the cascades see exactly the samples with a single sideband selected |
| `Demodulator.SidebandsShare` | wdsp/amd.c:201-210 | the sidebands are the sum and the difference of the same two paths |
| `Demodulator.CorrectionTurns` | wdsp/amd.c:152-192 | the correction is the sample turned back by the phase, its length kept |
| `Locking.BothSounds` | wdsp/amd.c:152-197 | over any run, with both sidebands and no fade levelling what is heard is the part of the sample along the oscillator: turned by the phase, it and a part across are the sample |
| `Locking.EnvelopeGivenBack` | wdsp/amd.c:133-133 | the envelope is the nonnegative number whose square is i² + q² |
| `Locking.LoopFollows` | wdsp/amd.c:222-231 | a carrier ahead by e within half a turn moves the frequency by g2 e unless a limit stops it, the advance is g1 e beyond it, and the phase goes on by the advance of before |
| `Locking.LockHolds` | wdsp/amd.c:150-231 | a loop in lock with an amplitude-modulated carrier stays in lock over any run, its oscillator the carrier's, whatever the modulation, modes and gains |
| `Locking.ModulationGivenBack` | wdsp/amd.c:150-197 | and gives the modulation back sample by sample |
| `Locking.LevelSettles` | wdsp/amd.c:213-218 | the leveller's averages approach audio and carrier by their own time constants, and it replaces the one by the other in what is heard |
| `Locking.StepLevels` | wdsp/amd.c:213-218 | the synchronous mode levels its audio against the part along the oscillator |
| `Locking.EnvelopeLevels` | wdsp/amd.c:134-139 | the envelope mode levels it against itself |
| `Locking.BothChannels` | wdsp/amd.c:219-220 | both channels carry every sound |
| `Demodulator.RunSplits` | wdsp/amd.c:150-150 | how a run is cut into buffers makes no difference |
| `Demodulator.OscillatorUnwrapped` | wdsp/amd.c:229-231 | the phase stays within one turn, and the oscillator is the one of the unwrapped phase |
| `Demodulator.FrequencyLimited` | wdsp/amd.c:223-228 | after every sample the frequency is between its limits and the loop filter within the detector's reach |
| `Amd.Demod.constructor` | wdsp/amd.c:28-65 | the record starts with the settings computed from the design and every delay empty |
| `Amd.Demod.Init` | wdsp/amd.c:72-92 | the settings of the loop and the fade leveller, and their state cleared |
| `Amd.DesignMeets` | wdsp/amd.c:72-92 | for a sensible design the limits of the lock are in order, the first gain lies between 0 and 1 and the leveller's weights are averages, which is what the loop relies on |
| `AmdDesign.GainsArePoles` | wdsp/amd.c:77-78 | the two gains place the poles of the loop, but for its one sample of delay, at a damped oscillation: they decay by zeta omegaN a second and turn by omegaN sqrt(1 - zeta²) |
| `AmdDesign.AveragesFade` | wdsp/amd.c:86-89 | after n samples an average has faded by the exponential of their time over its own |
| `AmdDesign.LimitsMean` | wdsp/amd.c:75-76 | the limits of the lock are the asked frequencies, as angles a sample |
| `Amd.Demod.Filter` | wdsp/amd.c:160-188 | the stage and shift loops over the four arrays compute the cascades' outputs and next taps |
| `Amd.Demod.Advance` | wdsp/amd.c:229-231 | the wrapping loops end with the phase within one turn |
| `Amd.Demod.Process` | wdsp/amd.c:115-239 | both modes over the buffers, the same one for input and output allowed, and the copy when off |
| `TapRing.Tap.Drain` | tools/nr_offline.c:302-321 | with the writer running, the newest samples the rule leaves are taken in order and the rest dropped; copied, dropped and discarded add up to the advance; every one is the sample of its number if two blocks fit beside them |
| `TapRing.Tap.Restart` | tools/nr_offline.c:370-372 | a new pass drops what was written before it and begins its account again |
| `TapRing.Tap.WriteBlock` | wdsp/RXA.c:702-721 | a block copied in two parts puts every sample in the slot of its number and then publishes it |
| `TapRing.SafeIff` | tools/nr_offline.c:307-312 | samples held by the reader stay in the ring, whatever is written of two blocks, if and only if those fit beside them |
| `TapRing.RoomSafeIff` | tools/nr_offline.c:310-312 | the reader's rule keeps to that for every backlog if and only if the ring has room for three blocks |
| `TapRing.InstalledSafe` | tools/nr_offline.c:282-293 | the installed ring always does |
| `TapRing.InstalledLossless` | tools/nr_offline.c:282-293 | and never drops a backlog of a whole run and six blocks |
| `TapRing.InstalledLeast` | tools/nr_offline.c:282-293 | it is the least of 4096 samples or more with room for the run and eight blocks |
| `NullStream.Stream.Read` | tools/soapy_null.cpp:422-491 | it ends; the block is the last of the one tone all readers share, stepped at the rate the call found, exactly as long as its last look leaves it, asked or the stream's unit; what was handed out and thrown away since activation, times the pace, is then at most the time since times the rate; a call that gives up found nothing to hand out at its last look, when its time was over; abrupt if and only if one of its own looks threw a backlog away |
| `NullStream.DueKeepsRate` | tools/soapy_null.cpp:437-438 | the samples due are the time times the rate over the pace, the fraction dropped |
| `NullStream.LateIff` | tools/soapy_null.cpp:439-451 | a backlog is too long if and only if it is more than half a second's samples |
| `NullStream.Stream.Others` | tools/soapy_null.cpp:455-458 | any locked sections of other readers, at any rates, keep the account, and the clock moves |
| `NullStream.Stream.Look` | tools/soapy_null.cpp:435-451 | a backlog over half a second at the reader's rate is thrown away and counted; after a fall of the rate there may be less than nothing due |
| `NullStream.Stream.Activate` | tools/soapy_null.cpp:402-412 | activation restarts the account |
| `NullStream.BlockKeeps` | tools/soapy_null.cpp:466-488 | a block handed out keeps produced = handed out + thrown away, and the blocks one unbroken tone |
| `NullStream.ToneJoins` | tools/soapy_null.cpp:466-481 | a tone handed out in two blocks is one tone, whatever the rates of the two |
| `NullStream.PhaseIsAngle` | tools/soapy_null.cpp:472-473 | the phase is the exact angle of the sample, whole turns apart |
| `NullStream.Stream.BlockSounds` | tools/soapy_null.cpp:466-473 | every sample of a block is the cosine and the sine of the angle that all the steps since activation add up to, each with a draw of noise of its own |
| `NullStream.BlockTurns` | tools/soapy_null.cpp:461-461 | n samples at a rate turn the angle by n / rate seconds of the asked tone |
| `NullStream.BlockInTurn` | tools/soapy_null.cpp:461-473 | the one subtraction a sample keeps the phase within a turn for a tone up to the lowest rate |
| `Pcm24.ReadBack` | tools/p2_emu.c:338-345 | a 24-bit sample is read back within one code of the clipped value |
| `P2Packet.Ddcs.Build` | tools/p2_emu.c:374-458 | number, time stamp, sample count and samples of a packet, filled exactly, and the whole new state of the DDCs |
| `P2Packet.Deinterleaved` | tools/p2_emu.c:430-457 | walking the packet by streams gives each stream's samples back in order |
| `P2Packet.HeaderReadBack` | src/proto/protocol2.c:1506-1513 | number and time stamp are read back from a packet's header, and the receiver takes every sample of it |
| `P2Packet.IqSamplesFit` | src/proto/protocol2.c:1506-1513 | of any packet it takes as many of the samples counted as are inside it |
| `P2Packet.PlacesFill` | tools/p2_emu.c:386-387 | one stream or two, 238 samples fill the 1444 bytes |
| `P2Packet.Ddcs.SyncFollower` | tools/p2_emu.c:365-370 | the search finds the first other DDC in the register |
| `Pacing.RunBounded` | tools/p2_emu.c:757-776 | over any run of ticks, across catch-up and resynchronisation, packets are at most elapsed / interval + 1 |
| `Pacing.RunOnTime` | tools/p2_emu.c:757-776 | while ticks come often enough for the budget, exactly the packets due are sent |
| `Pacing.TickWithinBudget` | tools/p2_emu.c:757-757 | no tick sends more than its budget |
| `P2Signal.IntervalKeepsRate` | tools/p2_emu.c:753-760 | the interval of a DDC is that of its rate for the samples a packet adds to its time stamp, with a follower on board or not, a fraction of a microsecond dropped |
| `P2Signal.StampsKeepRate` | tools/p2_emu.c:743-776 | over any run of turns that come often enough, a DDC's time stamp is never behind the samples its rate asks for, and ahead of them by at most the packet just sent and the fraction of a microsecond dropped from every interval |
| `P2Signal.MicKeepsRate` | tools/p2_emu.c:801-802 | microphone packets keep 48000 samples a second |
| `P2Signal.PauseIs` | tools/p2_emu.c:857-858 | the pause between bursts is the asked milliseconds times the whole part of the pace |
| `P2Signal.SampleIsTone` | tools/p2_emu.c:398-457 | every sample is the sine and the cosine of the exact angle of its DDC's tone at the asked rate, with the gain and shift of its ADC and draws of noise of its own |
| `P2Signal.CoherentPair` | tools/p2_emu.c:398-457 | with the noise off, the second ADC's samples are the first's, scaled and turned by the asked phase |
| `P2Signal.PhaseWithin` | tools/p2_emu.c:433-447 | the two corrections a sample keep the phase within half a turn for steps of up to a turn |
| `P2Board.Board.Tick` | tools/p2_emu.c:734-868 | every stream on the air has its paced tick, at most 32 packets, and its time stamp moves by the samples of the packets built; followers and disabled DDCs send nothing; status and microphone packets as due, at most one and 16; the sends tried are exactly the packets built; nothing is sent unless a high-priority block from this host asked for it; the streams end if and only if a send was refused, which is the last tried |
| `P2Board.Board.Receive` | tools/p2_emu.c:583-732 | only a register block from this host changes anything; the registers, due times and accounts after each block, and that stamps, phases and the place in the wideband burst stay |
| `P2Board.Board.NeverAhead` | tools/p2_emu.c:757-776 | at any time the packets in the log of a DDC since its last start or change of interval are at most elapsed / interval + 1, and one more once one was refused |
| `P2Board.Board.UpkeepNeverAhead` | tools/p2_emu.c:778-815 | so are status and microphone packets since the last start |
| `P2Board.Board.SendIq` | tools/p2_emu.c:757-776 | the packet carries the DDC's next number, its time stamp and all its samples, and moves the stamp; it moves the due time if and only if it went out |
| `P2Board.Board.TakeRxSpec` | tools/p2_emu.c:673-703 | rates, ADCs, sync maps and enables as the block says; a DDC switched on starts now |
| `P2Board.DdcTaken` | tools/p2_emu.c:676-691 | a DDC that a block switches on is due now and no other's due time moves; a rate of zero leaves the one it had |
| `P2Board.BlockRepeated` | tools/p2_emu.c:636-727 | a register block that is sent again changes nothing |
| `P2Board.AskedMeans` | tools/p2_emu.c:704-727 | running means some high-priority block asked and none since took it back |
| `P2Board.AskedByPeer` | tools/p2_emu.c:583-727 | and that block came from an address of this host |
| `P2Board.CarriedIff` | tools/p2_emu.c:743-755 | for any registers, a DDC's samples go out if and only if it is on the air, or a DDC on the air names it and no lower other |
| `P2Board.SecondFollowerLost` | tools/p2_emu.c:365-370 | of two followers of one DDC the higher goes out nowhere |
| `AppRegisters.ReceiveSpecific` | src/proto/protocol2.c:1033-1120 | the program's receive-specific block names the DDC, ADC and rate of every receiver, and for a mixer of DDCs 0 and 1 the one pair, with DDC 1's own enable bit clear |
| `AppRegisters.BoardConfigured` | tools/p2_emu.c:673-703 | the board that takes it has every receiver's ADC and rate, and a pair's ADCs 0 and 1 in DDC 0's packets |
| `AppRegisters.ReceiverCarriedIff` | tools/p2_emu.c:743-755 | every receiver's samples then go out, but for those of a pair's second without its first |
| `AppRegisters.TakenIff` | tools/p2_emu.c:622-633 | it is taken for a register block if and only if its number does not begin with the bytes of a protocol-1 command |
| `AppRegisters.GeneralBlock` | src/proto/protocol2.c:351-391 | the general block asks for as many wideband packets as fill the window's buffer, as often as its frames a second allow, each as far as a byte can say |
| `AppRegisters.WidebandServed` | tools/p2_emu.c:636-654 | it is never taken for a discovery, and the board sends what it asks for if and only if it is of the first ADC |
| `AppRegisters.DiscoveryIff` | tools/p2_emu.c:597-599 | a block on that port is a discovery if and only if its number is zero and its command 2 |
| `AppRegisters.RunningRead` | src/proto/protocol2.c:459-477 | the board reads the running bit of a high-priority block, transmitting or not |
| `AppRegisters.BitSet` | src/proto/protocol2.c:1049-1049 | setting a bit of a register adds that DDC to it and no other |
| `AppRegisters.SameBits` | tools/p2_emu.c:684-691 | registers that agree as sets of DDCs agree as bytes |
| `P2Board.Board.BurstsWhole` | tools/p2_emu.c:817-851 | over every run of blocks and turns the wideband packets of all streams are whole bursts numbered 0 to frame - 1 if and only if no send was refused inside a burst |
| `P2Witness.TornBurst` | tools/p2_emu.c:704-868 | a start, a refusal inside the burst and a second start, whose first packet is number 1 |
| `Wideband.RunWhole` | tools/p2_emu.c:817-851 | a turn leaves whole bursts and the beginning of one more, and ends at the beginning of a burst unless a send was refused |
| `Wideband.RunPaced` | tools/p2_emu.c:843-851 | bursts are never ahead of one a pause |
| `P2Board.Board.StreamWide` | tools/p2_emu.c:798-854 | the packets, due time and place in the burst that the answers to the sends leave, at most eight bursts a tick, with the pause after each |
| `P2Board.Board.WideWithin` | tools/p2_emu.c:811-828 | a turn sends no more than eight bursts of packets |
| `P2Board.StreamsForIff` | tools/p2_emu.c:809-810 | the feed streams if and only if it is enabled, of sixteen bits, every number of it is nonzero and a packet has at most 748 samples |
| `P2Board.SentBudgeted` | tools/p2_emu.c:773-775 | a packet sent when due keeps every DDC's account |
| `Metis.FrameFull` | tools/metis_emu.c:133-136 | a USB frame holds as many whole samples as fit |
| `Metis.FrameRead` | tools/metis_emu.c:168-190 | every receiver reads the sine and cosine of one unbroken phase back, to a code |
| `MetisSignal.PacketRead` | tools/metis_emu.c:168-190 | in a packet's two frames every receiver reads the sine and the cosine of one angle, a step of the tone further on for every sample |
| `MetisSignal.StepKeepsTone` | tools/metis_emu.c:178-178 | the step is that of the asked tone at the sample rate |
| `MetisSignal.IntervalKeepsRate` | tools/metis_emu.c:345-347 | the interval is that of the sample rate for the samples of two frames, a fraction of a microsecond dropped |
| `MetisSignal.RunKeepsRate` | tools/metis_emu.c:344-366 | so over any run of ticks that come often enough the samples sent are never behind the rate, and ahead of it by at most a packet and those fractions |
| `AppRegisters.Configuration` | src/proto/protocol1.c:955-1092 | the program's first command set is read by the board as its number of receivers and its rate, whatever the other flags |
| `AppRegisters.BoardFrames` | tools/metis_emu.c:306-327 | and the packet that carries it sets both, whatever other command is in its second half |
| `AppRegisters.FramingIff` | tools/metis_emu.c:310-313 | a command set is taken for the framing if and only if it has its sync and is number 0, transmitting or not |
| `AppRegisters.CommandRead` | src/proto/protocol1.c:1705-1728 | the program's start or stop is obeyed from this host, whatever the buffer held |
| `AppRegisters.BufferHolds` | tools/metis_emu.c:267-293 | of a short one, the byte is what the receive buffer held |
| `Metis.Board.BuildFrame` | tools/metis_emu.c:168-190 | the frame written in place is that frame |
| `Metis.Board.Send` | tools/metis_emu.c:339-363 | header, consecutive number and two frames of one tone |
| `Metis.Board.Receive` | tools/metis_emu.c:269-330 | discovery is answered and starts and stops are obeyed only from this host, a short one by the byte the buffer held; a start begins the numbers again; the framing is learnt from both command sets of a packet |
| `Metis.Board.Tick` | tools/metis_emu.c:332-367 | what is due, at most 32 packets, all of them logged; nothing unless the last command obeyed was a start from this host; the stream ends if and only if a send was refused |
| `Metis.Board.NeverAhead` | tools/metis_emu.c:332-367 | at any time the packets in the log since the last start or change of interval are at most elapsed / interval + 1, and one more once one was refused |
| `Collect.RunKeeps` | tools/ft8_offline.c:196-211 | under any interleaving of appends, new slots and polls, what has been taken is a beginning of every slot's list |
| `Collect.AtMostOnce` | tools/ft8_offline.c:196-211 | so every entry is taken at most once and in order, up to the capacity |
| `Collect.ExactlyOnce` | tools/ft8_offline.c:196-211 | polled between a slot's last entry and the next slot, and within the capacities, everything is seen exactly once |
| `Collect.Collector.Take` | tools/ft8_offline.c:196-211 | one poll, on the array |
| `VString.RunFrugal` | hfdl_lib/vstring.c:25-32 | after any run of appends the capacity is 256 doubled, 256 or below twice what is needed, and all copying together is less than it |
| `VString.Buffer.Grow` | hfdl_lib/vstring.c:25-32 | the doubling loop and the move of the bytes |
| `VString.Buffer.AppendBuffer` | hfdl_lib/vstring.c:65-71 | contents and terminator after an append |
| `VString.Buffer.AppendSprintf` | hfdl_lib/vstring.c:49-63 | the same for a formatted text; a failed or empty one changes nothing |
| `VString.Buffer.MultilineText` | hfdl_lib/vstring.c:75-87 | the contents grow by the indented text |
| `VString.MultilineUndone` | hfdl_lib/vstring.c:75-87 | for an indent of either sign the pad is as many spaces as its size says, and taking it off gives the text back with one final newline |

## Left out

- Sky.ObsSet.Calculate: requires a range off zero, because at zero the source divides by it; straight up and down, where the source divides zero by zero, the azimuth may be anything
- Sky.ObsAstro.Calculate: promises nothing straight up and down or at the poles, where the source divides zero by zero, nor due east and west at a positive zero, where it goes on from the wrong azimuth
- Kepler.SolveKepler: an iterate that is no longer a number is only marked as lost; the places and lengths that follow require an ellipse, elsq < 1
- DeepSpace.Deep.Dpper: requires t well below 1E20, the source's mark of an empty cache
- DeepSpace.StaleRun: the coefficient del1 and the drift xfact of its orbit are chosen, not computed from elements as dpinit does
- CalendarInverse.RoundTripIff: speaks of years from 1 on
- Propagation.Satellite.Finish: starts from given mean elements; the initialisation and the secular and drag updates of SGP4 and SDP4 are straight-line arithmetic
- DeepSpace.Deep.Dpsec: the flag bits of the satellite record are booleans
- DeepSpace.Deep.Dpinit: the resonance and lunar-solar coefficients are arbitrary constants, not computed from the elements
- Calendar.CalendarDate: day numbers are unbounded integers, where the source has 32 bits
- NullStream.Stream.Read: the sample formats and the copies to further channels are left out
- Amd.Demod.Process: a sideband mode other than 0, 1 and 2, for which the source leaves its audio unassigned, is left out
- TapRing.Tap.Drain: only the real part of a sample is kept, as the reader keeps it; the memory order of the published count is taken as given
- P2Board.Board.Tick: a send that fails in another way than being refused counts as sent, as in the source; the contents of the status, microphone and wideband packets are left out
- Collect.Collector.Take: labels and texts are not cut to the source's field widths
- VString.Buffer.AppendSprintf: is given the formatted text; formatting itself, and the overflow of a size, are left out
- Rounding, infinities and not-a-number of floating point
- `ThetaG`, `Calculate_User_PosVel` and `Calculate_LatLonAlt`: observer position and sidereal angle are parameters
- `writeStream` of the null device, whose pacing repeats that of `readStream`
- Whether and how soon the loop of the demodulator locks, and the quality of its sideband suppression
- P2Signal.CoherentPair: the gain of the second ADC is given as an amplitude, not computed from decibels
- AppRegisters.ReceiveSpecific: the dither and random bits and the PureSignal pair of a transmitting radio
- AppRegisters.GeneralBlock: the bytes from 29 on, which the emulated board does not read
- AppRegisters.Configuration: the command bytes C2 and C3, which the emulated board does not read
- Sockets, files, the graphical interface and the decoders
